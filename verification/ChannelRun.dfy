/** Whole runs of channel delivery: intake, any number of concurrent senders, lease takeovers,
    crashes and arbitrary POST outcomes. Each event is one transaction, one POST or one crash. */
module ChannelRun {
  import opened Basics
  import opened ChannelTables
  import opened Provider
  import opened Ranking
  import opened ChannelOps
  import opened ChannelInvariant
  import opened ChannelFill
  import opened ChannelClaim
  import opened ChannelQuiet

  // ---------------------------------------------------------------- POST outcomes

  datatype Settlement =
    | SettleSent
    | SettleSplit
    | SettleFailed
    | SettleRetry(countAttempt: bool, ambiguous: bool)

  /** The sender's outcome-to-transition map. A 2xx without a usable id is an unknown outcome. */
  function SettlementFor(reply: Reply, attempts: nat): Settlement {
    var status := StatusOf(reply);
    var limited := status == Some(429);
    if reply == Created(true) then SettleSent
    else if status == Some(413) then SettleSplit
    else if status in {Some(400), Some(401), Some(403), Some(404)} || (!limited && attempts >= 10)
    then SettleFailed
    else SettleRetry(!limited, Effect(reply).MayHaveBeenAccepted())
  }

  /** Replies after which the sender tries the same envelope again: neither a confirmed success, nor a
      definite refusal of its content or destination; from the tenth attempt on only a rate limit. */
  predicate Retryable(reply: Reply, attempts: nat) {
    && reply != Created(true)
    && (StatusOf(reply).Some? ==> StatusOf(reply).value !in {400, 401, 403, 404, 413})
    && (attempts >= 10 ==> StatusOf(reply) == Some(429))
  }

  /** Each reply has the settlement its status and the attempts so far call for; only a rate limit is
      no attempt, and doubt follows a write that may have been accepted. */
  lemma RepliesSettle(reply: Reply, attempts: nat)
    ensures var s := SettlementFor(reply, attempts);
            && (s.SettleSent? <==> reply == Created(true))
            && (s.SettleSplit? <==> reply == Status(413))
            && (s.SettleRetry? <==> Retryable(reply, attempts))
            && (s.SettleRetry? ==> (s.countAttempt <==> StatusOf(reply) != Some(429))
                                   && (s.ambiguous <==> MaybeDelivered(reply)))
  {
  }

  /** Only definite refusals give an envelope back undoubted or split it. */
  lemma GivesBackOnlyRefusals(reply: Reply, attempts: nat)
    ensures var s := SettlementFor(reply, attempts);
            s.SettleSplit? || (s.SettleRetry? && !s.ambiguous) ==> !Effect(reply).MayHaveBeenAccepted()
  {
  }

  // ---------------------------------------------------------------- the system

  datatype Stage = Claimed | Validated | Replied(reply: Reply)

  /** One sender thread and the batch it holds in memory. */
  datatype Flight = Flight(batch: Batch, stage: Stage)

  datatype Post = Post(batch: Batch, reply: Reply)

  datatype System = System(
    db: Db, now: Time, flights: map<Token, Flight>, used: set<Token>,
    latest: map<DispatchId, Token>, posts: seq<Post>)

  const START := System(EMPTY, 0.0, map[], {}, map[], [])

  datatype Event =
    | Tick(later: Time)
    | Intake(items: seq<Item>, seedOnly: bool)
    | Sweep
    | Cooldown(gate: Gate, until: Time)
    | ClaimNothing(q: Query, passes: seq<Pass>)
    | Claim(q: Query, passes: seq<Pass>, pick: Pass, token: Token)
    | Validate(t: Token)
    | Stop(t: Token)
    | NoDestination(t: Token)
    | Submit(t: Token, reply: Reply)
    | Settle(t: Token, messageId: string, delay: Time, reason: Reason)
    | Drop(t: Token)
    | Crash

  /** The tables when a claim reaches its last pass. */
  function Swept(s: System, passes: seq<Pass>): Db {
    RetireAll(Expire(s.db, s.now), passes)
  }

  ghost predicate ClaimRuns(s: System, q: Query, wire: Wire, passes: seq<Pass>) {
    && 1 <= q.size <= 10
    && AllRefused(Expire(s.db, s.now), s.now, q, wire, passes)
  }

  ghost predicate Enabled(s: System, wire: Wire, e: Event) {
    match e
    case Tick(later) => s.now <= later
    case Intake(_, _) => true
    case Sweep => true
    case Cooldown(_, _) => true
    case ClaimNothing(q, passes) => ClaimRuns(s, q, wire, passes)
    case Claim(q, passes, pick, token) =>
      && ClaimRuns(s, q, wire, passes)
      && GateUntil(s.db.gates, GlobalGate) <= s.now
      && Chosen(Swept(s, passes), s.now, q, wire, pick)
      && token !in s.used
    case Validate(t) => t in s.flights && s.flights[t].stage.Claimed?
    case Stop(t) => t in s.flights && s.flights[t].stage.Claimed?
    case NoDestination(t) => t in s.flights && s.flights[t].stage.Validated?
    case Submit(t, _) => t in s.flights && s.flights[t].stage.Validated?
    case Settle(t, _, _, _) => t in s.flights && s.flights[t].stage.Replied?
    case Drop(t) => t in s.flights
    case Crash => true
  }

  function Settled(db: Db, b: Batch, reply: Reply, now: Time, messageId: string, delay: Time, reason: Reason): Db
    requires ForeignKeys(db)
  {
    match SettlementFor(reply, b.attempts)
    case SettleSent => FinishBatch(db, b, Sent, Some(messageId), NoReason, now).0
    case SettleSplit => SplitRejected(db, b, now).0
    case SettleFailed => FinishBatch(db, b, Failed, None, reason, now).0
    case SettleRetry(count, ambiguous) => RetryBatch(db, b, now, delay, reason, count, ambiguous).0
  }

  /** A sender receives the leased batch under a token never used before. */
  ghost function Granted(s: System, pick: Pass, token: Token): System
    requires pick.first in s.db.jobs && pick.rows != [] && Known(s.db, pick.rows)
  {
    var b := BatchOf(s.db, pick, token);
    s.(db := Lease(s.db, pick, token, s.now),
       flights := s.flights[token := Flight(b, Claimed)],
       used := s.used + {token}, latest := s.latest[b.id := token])
  }

  ghost function Step(s: System, wire: Wire, e: Event): System
    requires Inv(s.db) && Enabled(s, wire, e)
  {
    match e
    case Tick(later) => s.(now := later)
    case Intake(items, seedOnly) => s.(db := RecordAll(s.db, items, s.now, seedOnly))
    case Sweep => s.(db := Expire(s.db, s.now))
    case Cooldown(gate, until) => s.(db := Defer(s.db, gate, until))
    case ClaimNothing(_, passes) => s.(db := Swept(s, passes))
    case Claim(q, passes, pick, token) =>
      SweepKeeps(s, q, wire, passes);
      LeaseKeeps(Swept(s, passes), s.now, q, wire, pick, token);
      Granted(s.(db := Swept(s, passes)), pick, token)
    case Validate(t) =>
      var (db, ok) := ValidateDispatch(s.db, s.flights[t].batch, s.now);
      s.(db := db, flights := if ok then s.flights[t := s.flights[t].(stage := Validated)] else s.flights - {t})
    case Stop(t) =>
      s.(db := RetryBatch(s.db, s.flights[t].batch, s.now, 0.01, Other("stopping"), false, false).0,
         flights := s.flights - {t})
    case NoDestination(t) =>
      s.(db := FinishBatch(s.db, s.flights[t].batch, Failed, None, Other("missing_destination"), s.now).0,
         flights := s.flights - {t})
    case Submit(t, reply) =>
      s.(posts := s.posts + [Post(s.flights[t].batch, reply)],
         flights := s.flights[t := s.flights[t].(stage := Replied(reply))])
    case Settle(t, messageId, delay, reason) =>
      var f := s.flights[t];
      s.(db := Settled(s.db, f.batch, f.stage.reply, s.now, messageId, delay, reason),
         flights := s.flights - {t})
    case Drop(t) => s.(flights := s.flights - {t})
    case Crash => s.(flights := map[])
  }

  lemma SweepKeeps(s: System, q: Query, wire: Wire, passes: seq<Pass>)
    requires Inv(s.db) && ClaimRuns(s, q, wire, passes)
    ensures QuietOff(s.db, Swept(s, passes), None)
    ensures NoneStale(Swept(s, passes), s.now)
    ensures |passes| <= |LiveJobs(s.db)|
  {
    var due := Expire(s.db, s.now);
    ExpireQuiet(s.db, s.now);
    assert LiveJobs(due) <= LiveJobs(s.db);
    SubsetSize(LiveJobs(due), LiveJobs(s.db));
    RefusedPasses(due, s.now, q, wire, passes);
    QuietTrans(s.db, due, Swept(s, passes));
  }

  // ---------------------------------------------------------------- the invariant

  ghost predicate MayBeAccepted(p: Post) {
    Effect(p.reply).MayHaveBeenAccepted()
  }

  /** Tokens are never reused, and a live row carries its envelope's latest token. */
  ghost predicate TokensInv(s: System) {
    && s.flights.Keys <= s.used
    && (forall d | d in s.latest :: s.latest[d] in s.used)
    && (forall k | k in s.db.jobs && s.db.jobs[k].state.Leased? ::
          && s.db.jobs[k].batch.Some? && s.db.jobs[k].batch.value in s.latest
          && s.db.jobs[k].token == Some(s.latest[s.db.jobs[k].batch.value]))
  }

  ghost predicate FlightsInv(s: System) {
    forall t | t in s.flights ::
      && s.flights[t].batch.token == t
      && Names(s.db, s.flights[t].batch)
      && Safe(s.db, s.flights[t].batch.id, t)
  }

  /** Every POST is a saved envelope's body; a possibly accepted one is safe. */
  ghost predicate PostsInv(s: System) {
    && (forall i | 0 <= i < |s.posts| ::
          && Names(s.db, s.posts[i].batch) && s.posts[i].batch.token in s.used
          && (MayBeAccepted(s.posts[i]) ==> Safe(s.db, s.posts[i].batch.id, s.posts[i].batch.token)))
    && (forall i | 0 <= i < |s.posts| && s.posts[i].batch.token in s.flights ::
          s.flights[s.posts[i].batch.token].stage == Replied(s.posts[i].reply))
  }

  ghost predicate SameEnvelopes(a: Batch, b: Batch) {
    a.id == b.id && a.jobs == b.jobs && a.body == b.body
  }

  /** After a possible acceptance, a POST with one of its jobs repeats the same envelope. */
  ghost predicate NoMixedPosts(posts: seq<Post>) {
    forall i, j, k | 0 <= i < j < |posts| && MayBeAccepted(posts[i])
                     && k in posts[i].batch.jobs && k in posts[j].batch.jobs ::
      SameEnvelopes(posts[i].batch, posts[j].batch)
  }

  ghost predicate SysInv(s: System) {
    && Inv(s.db) && OneLease(s.db, s.now)
    && TokensInv(s) && FlightsInv(s) && PostsInv(s) && NoMixedPosts(s.posts)
  }

  lemma NamesKept(a: Db, b: Db, batch: Batch)
    requires Preserves(a, b) && Names(a, batch)
    ensures Names(b, batch)
  {
  }

  /** Transactions that are quiet everywhere keep everything said about flights and posts. */
  lemma QuietStep(s: System, next: System)
    requires SysInv(s) && QuietOff(s.db, next.db, None)
    requires next.posts == s.posts && next.used == s.used && next.latest == s.latest && s.now <= next.now
    requires next.flights.Keys <= s.flights.Keys
    requires forall t | t in next.flights :: next.flights[t].batch == s.flights[t].batch
                     && (next.flights[t].stage == s.flights[t].stage || s.flights[t].stage.Claimed?)
    ensures SysInv(next)
  {
    LeasesAge(s.db, next.db, s.now, next.now);
    forall t | t in next.flights
      ensures next.flights[t].batch.token == t && Names(next.db, next.flights[t].batch)
              && Safe(next.db, next.flights[t].batch.id, t)
    {
      NamesKept(s.db, next.db, s.flights[t].batch);
      SafeWhileQuiet(s.db, next.db, s.flights[t].batch.id, t, None);
    }
    forall i | 0 <= i < |s.posts|
      ensures Names(next.db, s.posts[i].batch)
      ensures MayBeAccepted(s.posts[i]) ==> Safe(next.db, s.posts[i].batch.id, s.posts[i].batch.token)
    {
      NamesKept(s.db, next.db, s.posts[i].batch);
      if MayBeAccepted(s.posts[i]) {
        SafeWhileQuiet(s.db, next.db, s.posts[i].batch.id, s.posts[i].batch.token, None);
      }
    }
  }

  /** Giving a batch back: the holder leaves, and nobody else's acceptance is at risk. */
  lemma GiveBackStep(s: System, t: Token, next: System)
    requires SysInv(s) && t in s.flights && Keeps(s.db, next.db)
    requires next == s.(db := next.db, flights := s.flights - {t})
    requires forall d, u | Safe(s.db, d, u) && (d == s.flights[t].batch.id ==> u != t) :: Safe(next.db, d, u)
    requires forall p | p in s.posts && p.batch.token == t && MayBeAccepted(p) ::
               Safe(next.db, p.batch.id, t)
    ensures SysInv(next)
  {
    LeasesAge(s.db, next.db, s.now, s.now);
    forall u | u in next.flights
      ensures Names(next.db, next.flights[u].batch) && Safe(next.db, next.flights[u].batch.id, u)
    {
      NamesKept(s.db, next.db, s.flights[u].batch);
    }
    forall i | 0 <= i < |s.posts|
      ensures Names(next.db, s.posts[i].batch)
      ensures MayBeAccepted(s.posts[i]) ==> Safe(next.db, s.posts[i].batch.id, s.posts[i].batch.token)
    {
      assert s.posts[i] in s.posts;
      NamesKept(s.db, next.db, s.posts[i].batch);
    }
  }

  lemma RetryStep(s: System, t: Token, delay: Time, reason: Reason, count: bool, ambiguous: bool, next: System)
    requires SysInv(s) && t in s.flights
    requires next == s.(db := RetryBatch(s.db, s.flights[t].batch, s.now, delay, reason, count, ambiguous).0,
                        flights := s.flights - {t})
    requires forall p | p in s.posts && p.batch.token == t && MayBeAccepted(p) :: ambiguous
    ensures SysInv(next)
  {
    var b := s.flights[t].batch;
    RetryQuiet(s.db, b, s.now, delay, reason, count, ambiguous);
    forall d, u | Safe(s.db, d, u) && (d == b.id ==> u != t) ensures Safe(next.db, d, u) {
      RetrySafe(s.db, b, s.now, delay, reason, count, ambiguous, d, u);
    }
    forall p | p in s.posts && p.batch.token == t && MayBeAccepted(p) ensures Safe(next.db, p.batch.id, t) {
      RetrySafe(s.db, b, s.now, delay, reason, count, ambiguous, p.batch.id, t);
    }
    GiveBackStep(s, t, next);
  }

  lemma SplitStep(s: System, t: Token, next: System)
    requires SysInv(s) && t in s.flights
    requires next == s.(db := SplitRejected(s.db, s.flights[t].batch, s.now).0, flights := s.flights - {t})
    requires forall p | p in s.posts && p.batch.token == t :: !MayBeAccepted(p)
    ensures SysInv(next)
  {
    var b := s.flights[t].batch;
    SplitKeeps(s.db, b, s.now);
    forall d, u | Safe(s.db, d, u) && (d == b.id ==> u != t) ensures Safe(next.db, d, u) {
      SplitSafe(s.db, b, s.now, d, u);
    }
    GiveBackStep(s, t, next);
  }

  lemma SettleStep(s: System, wire: Wire, e: Event)
    requires SysInv(s) && e.Settle? && Enabled(s, wire, e)
    ensures SysInv(Step(s, wire, e))
  {
    var f := s.flights[e.t];
    var next := Step(s, wire, e);
    GivesBackOnlyRefusals(f.stage.reply, f.batch.attempts);
    match SettlementFor(f.stage.reply, f.batch.attempts)
    case SettleSent =>
      FinishQuiet(s.db, f.batch, Sent, Some(e.messageId), NoReason, s.now);
      QuietStep(s, next);
    case SettleFailed =>
      FinishQuiet(s.db, f.batch, Failed, None, e.reason, s.now);
      QuietStep(s, next);
    case SettleSplit =>
      SplitStep(s, e.t, next);
    case SettleRetry(count, ambiguous) =>
      RetryStep(s, e.t, e.delay, e.reason, count, ambiguous, next);
  }

  /** The granted state, stated without the event that led to it. */
  ghost predicate Grantable(s: System, q: Query, wire: Wire, pick: Pass, token: Token) {
    && SysInv(s) && q.size >= 1 && token !in s.used
    && Chosen(s.db, s.now, q, wire, pick) && Known(s.db, pick.rows)
  }

  lemma GrantTokens(s: System, q: Query, wire: Wire, pick: Pass, token: Token)
    requires Grantable(s, q, wire, pick, token)
    ensures TokensInv(Granted(s, pick, token))
  {
    LeaseKeeps(s.db, s.now, q, wire, pick, token);
    var next := Granted(s, pick, token);
    var d := EnvelopeId(s.db, pick);
    forall k | k in next.db.jobs && next.db.jobs[k].state.Leased?
      ensures next.db.jobs[k].batch.Some? && next.db.jobs[k].batch.value in next.latest
      ensures next.db.jobs[k].token == Some(next.latest[next.db.jobs[k].batch.value])
    {
      if k !in pick.rows {
        assert next.db.jobs[k] == s.db.jobs[k];
        NotAMember(s.db, s.now, q, wire, pick, token, k);
      }
    }
  }

  /** After the lease nobody outside the picked rows points at the envelope. */
  lemma NotAMember(db: Db, now: Time, q: Query, wire: Wire, pick: Pass, token: Token, k: JobId)
    requires Inv(db) && q.size >= 1 && Chosen(db, now, q, wire, pick) && Known(db, pick.rows)
    requires k in db.jobs && k !in pick.rows
    ensures db.jobs[k].batch != Some(EnvelopeId(db, pick))
  {
    if db.jobs[pick.first].batch.Some? {
      SavedRowsPoint(db, pick);
      assert k !in RowsOf(db.jobs, EnvelopeId(db, pick));
    } else {
      FreshId(db, now, q, wire, pick);
    }
  }

  lemma GrantFlights(s: System, q: Query, wire: Wire, pick: Pass, token: Token)
    requires Grantable(s, q, wire, pick, token)
    ensures FlightsInv(Granted(s, pick, token))
  {
    LeaseKeeps(s.db, s.now, q, wire, pick, token);
    LeaseIsSafe(s.db, s.now, q, wire, pick, token);
    var next := Granted(s, pick, token);
    forall t | t in next.flights && t != token
      ensures next.flights[t].batch.token == t && Names(next.db, next.flights[t].batch)
              && Safe(next.db, next.flights[t].batch.id, t)
    {
      NamesKept(s.db, next.db, s.flights[t].batch);
      LeaseSafe(s.db, s.now, q, wire, pick, token, s.flights[t].batch.id, t);
    }
  }

  lemma GrantPosts(s: System, q: Query, wire: Wire, pick: Pass, token: Token)
    requires Grantable(s, q, wire, pick, token)
    ensures PostsInv(Granted(s, pick, token))
  {
    LeaseKeeps(s.db, s.now, q, wire, pick, token);
    var next := Granted(s, pick, token);
    forall i | 0 <= i < |s.posts|
      ensures Names(next.db, s.posts[i].batch)
      ensures MayBeAccepted(s.posts[i]) ==> Safe(next.db, s.posts[i].batch.id, s.posts[i].batch.token)
    {
      NamesKept(s.db, next.db, s.posts[i].batch);
      if MayBeAccepted(s.posts[i]) {
        LeaseSafe(s.db, s.now, q, wire, pick, token, s.posts[i].batch.id, s.posts[i].batch.token);
      }
    }
  }

  lemma GrantKeeps(s: System, q: Query, wire: Wire, pick: Pass, token: Token)
    requires Grantable(s, q, wire, pick, token)
    ensures SysInv(Granted(s, pick, token)) && Preserves(s.db, Granted(s, pick, token).db)
  {
    LeaseKeeps(s.db, s.now, q, wire, pick, token);
    LeaseIsAlone(s.db, s.now, q, wire, pick, token);
    GrantTokens(s, q, wire, pick, token);
    GrantFlights(s, q, wire, pick, token);
    GrantPosts(s, q, wire, pick, token);
  }

  lemma ClaimStep(s: System, wire: Wire, q: Query, passes: seq<Pass>, pick: Pass, token: Token)
    requires SysInv(s) && Enabled(s, wire, Claim(q, passes, pick, token))
    ensures SysInv(Step(s, wire, Claim(q, passes, pick, token)))
    ensures Preserves(s.db, Step(s, wire, Claim(q, passes, pick, token)).db)
  {
    SweepKeeps(s, q, wire, passes);
    var mid := s.(db := Swept(s, passes));
    QuietStep(s, mid);
    LeaseKeeps(mid.db, s.now, q, wire, pick, token);
    GrantKeeps(mid, q, wire, pick, token);
    PreservesTrans(s.db, mid.db, Granted(mid, pick, token).db);
  }

  lemma PreservesTrans(a: Db, b: Db, c: Db)
    requires Preserves(a, b) && Preserves(b, c)
    ensures Preserves(a, c)
  {
  }

  /** Two whole envelopes that share a job are one envelope. */
  lemma SharedJob(db: Db, a: Batch, b: Batch, k: JobId)
    requires Inv(db) && Names(db, a) && Names(db, b) && Frozen(db, a.id) && Frozen(db, b.id)
    requires k in a.jobs && k in b.jobs
    ensures SameEnvelopes(a, b)
  {
    assert k in RowsOf(db.jobs, a.id) && k in RowsOf(db.jobs, b.id);
  }

  /** A POST of a saved envelope mixes with no earlier possibly accepted one. */
  lemma SubmitUnmixed(s: System, b: Batch, p: Post)
    requires SysInv(s) && b.token in s.flights && s.flights[b.token].batch == b && p.batch == b
    ensures NoMixedPosts(s.posts + [p])
  {
    var n := |s.posts|;
    forall i, k | 0 <= i < n && MayBeAccepted(s.posts[i]) && k in s.posts[i].batch.jobs && k in b.jobs
      ensures SameEnvelopes(s.posts[i].batch, b)
    {
      SharedJob(s.db, s.posts[i].batch, b, k);
    }
  }

  /** A flight that has no reply has not posted. */
  lemma NoPostYet(s: System, t: Token)
    requires PostsInv(s) && t in s.flights && !s.flights[t].stage.Replied?
    ensures forall p | p in s.posts :: p.batch.token != t
  {
  }

  lemma SubmitPosts(s: System, t: Token, reply: Reply, next: System)
    requires SysInv(s) && t in s.flights && s.flights[t].stage.Validated?
    requires next == s.(posts := s.posts + [Post(s.flights[t].batch, reply)],
                        flights := s.flights[t := s.flights[t].(stage := Replied(reply))])
    ensures PostsInv(next)
  {
    NoPostYet(s, t);
    var n := |s.posts|;
    forall i | 0 <= i < n
      ensures next.posts[i] == s.posts[i] && s.posts[i].batch.token != t
    {
      assert s.posts[i] in s.posts;
    }
  }

  lemma SubmitStep(s: System, wire: Wire, e: Event)
    requires SysInv(s) && e.Submit? && Enabled(s, wire, e)
    ensures SysInv(Step(s, wire, e))
  {
    var b := s.flights[e.t].batch;
    SubmitUnmixed(s, b, Post(b, e.reply));
    SubmitPosts(s, e.t, e.reply, Step(s, wire, e));
  }

  lemma ValidateStep(s: System, wire: Wire, t: Token)
    requires SysInv(s) && Enabled(s, wire, Validate(t))
    ensures SysInv(Step(s, wire, Validate(t))) && Preserves(s.db, Step(s, wire, Validate(t)).db)
  {
    ValidateQuiet(s.db, s.flights[t].batch, s.now);
    ValidateFlights(s, wire, t);
    QuietStep(s, Step(s, wire, Validate(t)));
  }

  /** Validation touches only the validated flight. */
  lemma ValidateFlights(s: System, wire: Wire, t: Token)
    requires Inv(s.db) && Enabled(s, wire, Validate(t))
    ensures var next := Step(s, wire, Validate(t));
            && next.db == ValidateDispatch(s.db, s.flights[t].batch, s.now).0
            && next.posts == s.posts && next.used == s.used && next.latest == s.latest && next.now == s.now
            && next.flights.Keys <= s.flights.Keys
            && forall u | u in next.flights :: next.flights[u].batch == s.flights[u].batch
                            && (next.flights[u].stage == s.flights[u].stage || s.flights[u].stage.Claimed?)
  {
  }

  lemma StopStep(s: System, wire: Wire, t: Token)
    requires SysInv(s) && Enabled(s, wire, Stop(t))
    ensures SysInv(Step(s, wire, Stop(t))) && Preserves(s.db, Step(s, wire, Stop(t)).db)
  {
    RetryKeeps(s.db, s.flights[t].batch, s.now, 0.01, Other("stopping"), false, false);
    NoPostYet(s, t);
    RetryStep(s, t, 0.01, Other("stopping"), false, false, Step(s, wire, Stop(t)));
  }

  lemma NoDestinationStep(s: System, wire: Wire, t: Token)
    requires SysInv(s) && Enabled(s, wire, NoDestination(t))
    ensures SysInv(Step(s, wire, NoDestination(t))) && Preserves(s.db, Step(s, wire, NoDestination(t)).db)
  {
    FinishQuiet(s.db, s.flights[t].batch, Failed, None, Other("missing_destination"), s.now);
    QuietStep(s, Step(s, wire, NoDestination(t)));
  }

  lemma EmptyClaimStep(s: System, wire: Wire, q: Query, passes: seq<Pass>)
    requires SysInv(s) && Enabled(s, wire, ClaimNothing(q, passes))
    ensures SysInv(Step(s, wire, ClaimNothing(q, passes)))
    ensures Preserves(s.db, Step(s, wire, ClaimNothing(q, passes)).db)
  {
    SweepKeeps(s, q, wire, passes);
    QuietStep(s, Step(s, wire, ClaimNothing(q, passes)));
  }

  /** Intake, expiry sweeps and cooldowns. */
  lemma StoreStep(s: System, wire: Wire, e: Event)
    requires SysInv(s) && Enabled(s, wire, e) && (e.Intake? || e.Sweep? || e.Cooldown?)
    ensures SysInv(Step(s, wire, e)) && Preserves(s.db, Step(s, wire, e).db)
  {
    if e.Intake? {
      RecordQuiet(s.db, e.items, s.now, e.seedOnly);
    } else if e.Sweep? {
      ExpireQuiet(s.db, s.now);
    } else {
      DeferQuiet(s.db, e.gate, e.until);
    }
    QuietStep(s, Step(s, wire, e));
  }

  /** The clock and lost senders. */
  lemma LossStep(s: System, wire: Wire, e: Event)
    requires SysInv(s) && Enabled(s, wire, e) && (e.Tick? || e.Drop? || e.Crash?)
    ensures SysInv(Step(s, wire, e)) && Preserves(s.db, Step(s, wire, e).db)
  {
    QuietSelf(s.db);
    LossOnly(s, wire, e);
    QuietStep(s, Step(s, wire, e));
  }

  lemma QuietSelf(db: Db)
    requires Inv(db)
    ensures QuietOff(db, db, None)
  {
  }

  lemma LossOnly(s: System, wire: Wire, e: Event)
    requires Inv(s.db) && Enabled(s, wire, e) && (e.Tick? || e.Drop? || e.Crash?)
    ensures var next := Step(s, wire, e);
            && next == s.(now := next.now, flights := next.flights) && s.now <= next.now
            && next.flights.Keys <= s.flights.Keys && forall t | t in next.flights :: next.flights[t] == s.flights[t]
  {
  }

  /** Every event keeps the invariant and the settled history. */
  lemma StepKeeps(s: System, wire: Wire, e: Event)
    requires SysInv(s) && Enabled(s, wire, e)
    ensures SysInv(Step(s, wire, e))
    ensures Preserves(s.db, Step(s, wire, e).db)
  {
    match e
    case ClaimNothing(q, passes) => EmptyClaimStep(s, wire, q, passes);
    case Claim(q, passes, pick, token) => ClaimStep(s, wire, q, passes, pick, token);
    case Validate(t) => ValidateStep(s, wire, t);
    case Stop(t) => StopStep(s, wire, t);
    case NoDestination(t) => NoDestinationStep(s, wire, t);
    case Submit(t, reply) => SubmitStep(s, wire, e);
    case Settle(t, messageId, delay, reason) =>
      SettleStep(s, wire, e);
      SettlePreserves(s, wire, e);
    case Intake(_, _) => StoreStep(s, wire, e);
    case Sweep => StoreStep(s, wire, e);
    case Cooldown(_, _) => StoreStep(s, wire, e);
    case _ => LossStep(s, wire, e);
  }

  lemma SettlePreserves(s: System, wire: Wire, e: Event)
    requires SysInv(s) && e.Settle? && Enabled(s, wire, e)
    ensures Preserves(s.db, Step(s, wire, e).db)
  {
    var f := s.flights[e.t];
    match SettlementFor(f.stage.reply, f.batch.attempts)
    case SettleSent => FinishKeeps(s.db, f.batch, Sent, Some(e.messageId), NoReason, s.now);
    case SettleFailed => FinishKeeps(s.db, f.batch, Failed, None, e.reason, s.now);
    case SettleSplit => SplitKeeps(s.db, f.batch, s.now);
    case SettleRetry(count, ambiguous) =>
      RetryKeeps(s.db, f.batch, s.now, e.delay, e.reason, count, ambiguous);
  }
}
