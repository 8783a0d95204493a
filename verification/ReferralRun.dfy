/** Whole runs of the reward ledger around provider writes: preparing workers, replays of an
    ambiguous apply, recoveries, late bindings, reversals and crashes in any order.

    The original runs one polling worker. Here any number may prepare and replay at once; only a
    replay decision while a first submission of the same reward is in flight is excluded, which a
    single sequential worker never makes. */
module ReferralRun {
  import opened Basics
  import opened Ranking
  import opened ReferralTables
  import opened ReferralInvariant

  // ---------------------------------------------------------------- provider answers

  /** A matching or a mismatched success, an error status, a broken exchange, a local refusal. */
  datatype Answer = Confirmed | Mismatched | Failed(code: nat, inProgress: bool) | Broken(submitted: bool) | NotSent

  /** What the apply POST may have done. */
  function Effect(a: Answer): Outcome {
    match a
    case Confirmed => Accepted
    case Mismatched => Unknown
    case Failed(code, inProgress) =>
      if code >= 500 || 300 <= code < 400 || inProgress then Unknown else Rejected
    case Broken(submitted) => if submitted then Unknown else NotSubmitted
    case NotSent => NotSubmitted
  }

  predicate MayBeAccepted(a: Answer) {
    Effect(a).MayHaveBeenAccepted()
  }

  // ---------------------------------------------------------------- the system

  /** Preparing: claimed, the promo is being created. Marked: the submission boundary is durable. */
  datatype Stage = Preparing | Marked(at: Time) | Answered(at: Time, answer: Answer)

  datatype Worker = Worker(id: WhopId, intent: Intent, fingerprint: Option<Fingerprint>, stage: Stage)

  /** A stale application read back for replay; decided is when its window was checked. */
  datatype Replay = Replay(
    id: WhopId, intent: Intent, fingerprint: Option<Fingerprint>, submitted: Time, decided: Option<Time>)

  datatype Post = Post(
    id: WhopId, intent: Intent, fingerprint: Option<Fingerprint>, decided: Time, at: Time, answer: Answer)

  datatype System = System(
    db: Db, now: Time, workers: map<Token, Worker>, used: set<Token>, replays: map<nat, Replay>,
    issued: seq<Intent>, posts: seq<Post>)

  const START := System(EMPTY, 0.0, map[], {}, map[], [], [])

  datatype Event =
    | Tick(later: Time)
    | Enrol(d: DiscordId)
    | BindAccount(d: DiscordId, w: WhopId)
    | CreditSale(referrer: DiscordId, referee: WhopId, payment: PaymentId, m: MembershipId,
                 refereeDiscord: Option<DiscordId>)
    | VoidSale(id: WhopId, reason: string)
    | FlagReward(id: WhopId, reason: string)
    | Claim(d: DiscordId, m: MembershipId, id: WhopId, t: Token, until: Time, fingerprint: Option<Fingerprint>)
    | PromoFails(t: Token, reason: string, guarded: bool)
    | Mark(t: Token)
    | Submit(t: Token, answer: Answer)
    | SettleApply(t: Token, promo: PromoId, reason: string)
    | Recover(id: WhopId)
    | ReadBack(k: nat, id: WhopId, credential: Fingerprint)
    | CheckWindow(k: nat)
    | Repeat(k: nat, answer: Answer)
    | Confirm(id: WhopId, promo: PromoId)
    | Consume(id: WhopId, payment: PaymentId, m: MembershipId)
    | DropWorker(t: Token)
    | DropReplay(k: nat)
    | Crash

  /** Nobody is between marking and settling a first submission of this reward. */
  ghost predicate NoneInFlight(s: System, id: WhopId) {
    forall t | t in s.workers && s.workers[t].id == id :: s.workers[t].stage.Preparing?
  }

  ghost predicate Enabled(s: System, e: Event) {
    match e
    case Tick(later) => s.now <= later
    case Claim(d, m, id, t, _, _) => MayClaim(s.db, d, m) && Lowest(Payable(s.db, d), id) && t !in s.used
    case PromoFails(t, _, _) => t in s.workers && s.workers[t].stage.Preparing?
    case Mark(t) => t in s.workers && s.workers[t].stage.Preparing?
    case Submit(t, _) => t in s.workers && s.workers[t].stage.Marked?
    case SettleApply(t, _, _) => t in s.workers && s.workers[t].stage.Answered?
    case Recover(id) =>
      && id in s.db.rewards && s.db.rewards[id].state.Applying? && s.db.rewards[id].submitted.None?
      && s.db.rewards[id].token.Some?
      && s.db.rewards[id].leaseUntil.Some? && s.db.rewards[id].leaseUntil.value <= s.now
    case ReadBack(k, id, credential) =>
      && k !in s.replays && NoneInFlight(s, id)
      && id in s.db.rewards && s.db.rewards[id].state.Applying? && s.db.rewards[id].submitted.Some?
      && s.db.rewards[id].fingerprint == Some(credential) && s.db.rewards[id].intent.Some?
    case CheckWindow(k) => k in s.replays && s.replays[k].decided.None?
    case Repeat(k, _) => k in s.replays && s.replays[k].decided.Some?
    case DropWorker(t) => t in s.workers
    case DropReplay(k) => k in s.replays
    case _ => true
  }

  predicate InWindow(r: Replay, now: Time) {
    r.submitted <= now < r.submitted + REPLAY_WINDOW
  }

  /** What the first submitter does with its answer. */
  function Settled(db: Db, id: WhopId, t: Token, answer: Answer, promo: PromoId, reason: string): Db {
    if answer.Confirmed? then MarkApplied(db, id, t, promo).0
    else if MayBeAccepted(answer) then db
    else Release(db, id, t, reason, false).0
  }

  ghost function Step(s: System, e: Event): System
    requires Enabled(s, e)
  {
    match e
    case Tick(later) => s.(now := later)
    case Enrol(d) => s.(db := EnsureProfile(s.db, d))
    case BindAccount(d, w) => s.(db := Bind(s.db, d, w).0)
    case CreditSale(referrer, referee, payment, m, refereeDiscord) =>
      s.(db := Credit(s.db, referrer, referee, payment, m, refereeDiscord, s.now).0)
    case VoidSale(id, reason) => s.(db := VoidReward(s.db, id, reason).0)
    case FlagReward(id, reason) => s.(db := Flag(s.db, id, reason).0)
    case Claim(d, m, id, t, until, fingerprint) =>
      var intent := Intent(id, m, s.db.rewards[id].generation + 1);
      s.(db := ClaimReward(s.db, id, m, t, until, fingerprint), used := s.used + {t},
         workers := s.workers[t := Worker(id, intent, fingerprint, Preparing)], issued := s.issued + [intent])
    case PromoFails(t, reason, guarded) =>
      s.(db := Release(s.db, s.workers[t].id, t, reason, guarded).0, workers := s.workers - {t})
    case Mark(t) =>
      var (db, ok) := MarkSubmission(s.db, s.workers[t].id, t, s.now);
      if ok then s.(db := db, workers := s.workers[t := s.workers[t].(stage := Marked(s.now))])
      else s.(db := Release(s.db, s.workers[t].id, t, "preparation_retry", true).0, workers := s.workers - {t})
    case Submit(t, answer) =>
      var w := s.workers[t];
      s.(posts := s.posts + [Post(w.id, w.intent, w.fingerprint, w.stage.at, s.now, answer)],
         workers := s.workers[t := w.(stage := Answered(w.stage.at, answer))])
    case SettleApply(t, promo, reason) =>
      var w := s.workers[t];
      s.(db := Settled(s.db, w.id, t, w.stage.answer, promo, reason), workers := s.workers - {t})
    case Recover(id) =>
      s.(db := Release(s.db, id, s.db.rewards[id].token.value, "preparation_recovered", true).0)
    case ReadBack(k, id, _) =>
      var r := s.db.rewards[id];
      s.(replays := s.replays[k := Replay(id, r.intent.value, r.fingerprint, r.submitted.value, None)])
    case CheckWindow(k) =>
      if InWindow(s.replays[k], s.now)
      then s.(replays := s.replays[k := s.replays[k].(decided := Some(s.now))])
      else s.(db := Flag(s.db, s.replays[k].id, "application_reconciliation").0, replays := s.replays - {k})
    case Repeat(k, answer) =>
      var r := s.replays[k];
      s.(posts := s.posts + [Post(r.id, r.intent, r.fingerprint, r.decided.value, s.now, answer)],
         replays := s.replays - {k})
    case Confirm(id, promo) => s.(db := Reconcile(s.db, id, WasApplied(promo)).0)
    case Consume(id, payment, m) => s.(db := MarkUsed(s.db, id, payment, m).0)
    case DropWorker(t) => s.(workers := s.workers - {t})
    case DropReplay(k) => s.(replays := s.replays - {k})
    case Crash => s.(workers := map[], replays := map[])
  }

  ghost predicate Trace(states: seq<System>, events: seq<Event>) {
    && |states| == |events| + 1
    && forall i | 0 <= i < |events| :: Enabled(states[i], events[i]) && states[i + 1] == Step(states[i], events[i])
  }

  // ---------------------------------------------------------------- the invariant

  /** The row still carries this submitted application. */
  ghost predicate Anchored(db: Db, id: WhopId, intent: Intent, fingerprint: Option<Fingerprint>, at: Time) {
    && id in db.rewards
    && var r := db.rewards[id];
    && !r.state.Pending? && !r.state.Void?
    && r.intent == Some(intent) && r.membership == Some(intent.membership)
    && r.fingerprint == fingerprint && r.submitted == Some(at)
  }

  ghost predicate PostAnchored(db: Db, p: Post) {
    && p.id in db.rewards && db.rewards[p.id].submitted.Some?
    && var at := db.rewards[p.id].submitted.value;
    && Anchored(db, p.id, p.intent, p.fingerprint, at)
    && at <= p.decided <= p.at
  }

  ghost predicate NoStake(s: System, id: WhopId) {
    forall p | p in s.posts && p.id == id :: !MayBeAccepted(p.answer)
  }

  ghost predicate NoReplay(s: System, id: WhopId) {
    forall k | k in s.replays :: s.replays[k].id != id
  }

  ghost predicate WorkerOk(s: System, t: Token, w: Worker) {
    && t in s.used && w.id in s.db.rewards
    && (s.db.rewards[w.id].token == Some(t) ==>
          s.db.rewards[w.id].intent == Some(w.intent) && s.db.rewards[w.id].fingerprint == w.fingerprint)
    && match w.stage
       case Preparing => s.db.rewards[w.id].token == Some(t) ==> s.db.rewards[w.id].submitted.None?
       case Marked(at) =>
         && Anchored(s.db, w.id, w.intent, w.fingerprint, at) && s.db.rewards[w.id].token == Some(t)
         && at <= s.now && NoStake(s, w.id) && NoReplay(s, w.id)
       case Answered(at, answer) =>
         && Anchored(s.db, w.id, w.intent, w.fingerprint, at) && s.db.rewards[w.id].token == Some(t)
         && at <= s.now && NoReplay(s, w.id) && (!MayBeAccepted(answer) ==> NoStake(s, w.id))
  }

  ghost predicate ReplayOk(s: System, r: Replay) {
    && Anchored(s.db, r.id, r.intent, r.fingerprint, r.submitted)
    && (r.decided.Some? ==> InWindow(r, r.decided.value) && r.decided.value <= s.now)
  }

  /** A later apply repeats the earlier one inside the provider's replay window. */
  ghost predicate Repeats(p: Post, q: Post) {
    q.intent == p.intent && q.fingerprint == p.fingerprint && q.decided < p.at + REPLAY_WINDOW
  }

  ghost predicate PostsOk(s: System) {
    && (forall p | p in s.posts && MayBeAccepted(p.answer) :: PostAnchored(s.db, p))
    && (forall i, j | 0 <= i < j < |s.posts| && s.posts[i].id == s.posts[j].id && MayBeAccepted(s.posts[i].answer) ::
          Repeats(s.posts[i], s.posts[j]))
  }

  ghost predicate SysInv(s: System) {
    && (forall t | t in s.workers :: WorkerOk(s, t, s.workers[t]))
    && (forall k | k in s.replays :: ReplayOk(s, s.replays[k]))
    && PostsOk(s)
    && (forall id | id in s.db.rewards && s.db.rewards[id].token.Some? :: s.db.rewards[id].token.value in s.used)
  }

  // ---------------------------------------------------------------- steady changes

  /** One row changes no submitted application and hands out no token. */
  ghost predicate SteadyRow(r: Reward, q: Reward) {
    && (!r.state.Pending? && !r.state.Void? && r.submitted.Some? ==>
          && !q.state.Pending? && !q.state.Void?
          && q.intent == r.intent && q.membership == r.membership && q.fingerprint == r.fingerprint
          && q.submitted == r.submitted && q.token == r.token)
    && (q.token.Some? ==> q.token == r.token && q.intent == r.intent && q.fingerprint == r.fingerprint
                          && q.submitted == r.submitted)
    && q.generation == r.generation
  }

  ghost predicate Steady(a: Db, b: Db) {
    && (forall id | id in a.rewards :: id in b.rewards && SteadyRow(a.rewards[id], b.rewards[id]))
    && (forall id | id in b.rewards && id !in a.rewards :: b.rewards[id].token.None?)
  }

  lemma SteadyWorker(s: System, next: System, t: Token)
    requires t in s.workers && WorkerOk(s, t, s.workers[t]) && Steady(s.db, next.db)
    requires next.replays.Keys <= s.replays.Keys && (forall k | k in next.replays :: next.replays[k] == s.replays[k])
    requires next.posts == s.posts && s.now <= next.now && s.used <= next.used
    ensures WorkerOk(next, t, s.workers[t])
  {
    var w := s.workers[t];
    assert SteadyRow(s.db.rewards[w.id], next.db.rewards[w.id]);
  }

  lemma SteadyPosts(s: System, next: System)
    requires PostsOk(s) && Steady(s.db, next.db) && next.posts == s.posts
    ensures PostsOk(next)
  {
    forall p | p in next.posts && MayBeAccepted(p.answer) ensures PostAnchored(next.db, p) {
      assert PostAnchored(s.db, p);
      assert SteadyRow(s.db.rewards[p.id], next.db.rewards[p.id]);
    }
  }

  /** Steady changes that start no worker and no replay keep the invariant. */
  lemma SteadyStep(s: System, next: System)
    requires SysInv(s) && Steady(s.db, next.db)
    requires next.workers.Keys <= s.workers.Keys && (forall t | t in next.workers :: next.workers[t] == s.workers[t])
    requires next.replays.Keys <= s.replays.Keys && (forall k | k in next.replays :: next.replays[k] == s.replays[k])
    requires next.posts == s.posts && s.now <= next.now && s.used <= next.used
    ensures SysInv(next)
  {
    forall t | t in next.workers ensures WorkerOk(next, t, next.workers[t]) {
      SteadyWorker(s, next, t);
    }
    forall k | k in next.replays ensures ReplayOk(next, next.replays[k]) {
      assert ReplayOk(s, s.replays[k]);
      assert SteadyRow(s.db.rewards[s.replays[k].id], next.db.rewards[s.replays[k].id]);
    }
    SteadyPosts(s, next);
    forall id | id in next.db.rewards && next.db.rewards[id].token.Some?
      ensures next.db.rewards[id].token.value in next.used
    {
      assert id in s.db.rewards;
      assert SteadyRow(s.db.rewards[id], next.db.rewards[id]);
    }
  }

  lemma SteadyPut(db: Db, id: WhopId, r: Reward)
    requires id in db.rewards && SteadyRow(db.rewards[id], r)
    ensures Steady(db, Put(db, id, r))
  {
  }

  lemma UnsubmittedReleaseSteady(db: Db, id: WhopId, t: Token, reason: string, guarded: bool)
    requires id in db.rewards && db.rewards[id].token == Some(t) ==> db.rewards[id].submitted.None?
    ensures Steady(db, Release(db, id, t, reason, guarded).0)
  {
    if Release(db, id, t, reason, guarded).1 { SteadyPut(db, id, BackToPending(db.rewards[id], reason)); }
  }

  lemma BindSteady(db: Db, d: DiscordId, w: WhopId)
    ensures Steady(db, Bind(db, d, w).0)
  {
  }

  lemma FlagSteady(db: Db, id: WhopId, reason: string)
    ensures Steady(db, Flag(db, id, reason).0)
  {
  }

  lemma VoidSteady(db: Db, id: WhopId, reason: string)
    requires StoreInv(db)
    ensures Steady(db, VoidReward(db, id, reason).0)
  {
    if id in db.rewards { assert RowOk(db, id, db.rewards[id]); }
  }

  lemma ConfirmSteady(db: Db, id: WhopId, promo: PromoId)
    ensures Steady(db, Reconcile(db, id, WasApplied(promo)).0)
  {
  }

  lemma ConsumeSteady(db: Db, id: WhopId, payment: PaymentId, m: MembershipId)
    ensures Steady(db, MarkUsed(db, id, payment, m).0)
  {
  }

  lemma CreditSteady(db: Db, referrer: DiscordId, referee: WhopId, payment: PaymentId, m: MembershipId,
                     refereeDiscord: Option<DiscordId>, now: Time)
    ensures Steady(db, Credit(db, referrer, referee, payment, m, refereeDiscord, now).0)
  {
    if CreditOutcome(db, referrer, referee, payment, refereeDiscord).New? && referee in db.rewards {
      assert IsPrevious(db, referee, referee, payment);
    }
  }

  // ---------------------------------------------------------------- the other steps

  /** Events of the ledger itself, on behalf of nobody's application. */
  predicate OnLedger(e: Event) {
    e.Enrol? || e.BindAccount? || e.CreditSale? || e.VoidSale? || e.FlagReward? || e.Confirm? || e.Consume?
  }

  lemma LedgerSteady(s: System, e: Event)
    requires StoreInv(s.db) && Enabled(s, e) && OnLedger(e)
    ensures Steady(s.db, Step(s, e).db)
  {
    match e {
      case Enrol(d) => assert EnsureProfile(s.db, d).rewards == s.db.rewards;
      case BindAccount(d, w) => BindSteady(s.db, d, w);
      case CreditSale(referrer, referee, payment, m, refereeDiscord) =>
        CreditSteady(s.db, referrer, referee, payment, m, refereeDiscord, s.now);
      case VoidSale(id, reason) => VoidSteady(s.db, id, reason);
      case FlagReward(id, reason) => FlagSteady(s.db, id, reason);
      case Confirm(id, promo) => ConfirmSteady(s.db, id, promo);
      case Consume(id, payment, m) => ConsumeSteady(s.db, id, payment, m);
    }
  }

  lemma LedgerStep(s: System, e: Event)
    requires SysInv(s) && StoreInv(s.db) && Enabled(s, e) && OnLedger(e)
    ensures SysInv(Step(s, e))
  {
    LedgerSteady(s, e);
    LedgerOnly(s, e);
    SteadyStep(s, Step(s, e));
  }

  lemma LedgerOnly(s: System, e: Event)
    requires Enabled(s, e) && OnLedger(e)
    ensures Step(s, e) == s.(db := Step(s, e).db)
  {
  }

  /** The clock, lost workers and lost replays. */
  lemma QuietStep(s: System, e: Event)
    requires SysInv(s) && Enabled(s, e) && (e.Tick? || e.DropWorker? || e.DropReplay? || e.Crash?)
    ensures SysInv(Step(s, e))
  {
    SteadySelf(s.db);
    SteadyStep(s, Step(s, e));
  }

  lemma SteadySelf(db: Db)
    ensures Steady(db, db)
  {
  }

  lemma GiveBackStep(s: System, e: Event)
    requires SysInv(s) && Enabled(s, e) && (e.PromoFails? || e.Recover?)
    ensures SysInv(Step(s, e))
  {
    if e.PromoFails? {
      assert WorkerOk(s, e.t, s.workers[e.t]);
      UnsubmittedReleaseSteady(s.db, s.workers[e.t].id, e.t, e.reason, e.guarded);
    } else {
      UnsubmittedReleaseSteady(s.db, e.id, s.db.rewards[e.id].token.value, "preparation_recovered", true);
    }
    SteadyStep(s, Step(s, e));
  }

  /** No worker past its mark, no replay and no accepted post hangs on a row that is not anchored. */
  lemma Free(s: System, id: WhopId)
    requires SysInv(s) && id in s.db.rewards
    requires s.db.rewards[id].state.Pending? || s.db.rewards[id].submitted.None?
    ensures NoStake(s, id) && NoReplay(s, id)
    ensures forall t | t in s.workers && s.workers[t].id == id :: s.workers[t].stage.Preparing?
  {
    forall p | p in s.posts && p.id == id ensures !MayBeAccepted(p.answer) {
      assert MayBeAccepted(p.answer) ==> PostAnchored(s.db, p);
    }
    forall k | k in s.replays ensures s.replays[k].id != id {
      assert ReplayOk(s, s.replays[k]);
    }
    forall t | t in s.workers && s.workers[t].id == id ensures s.workers[t].stage.Preparing? {
      assert WorkerOk(s, t, s.workers[t]);
    }
  }

  /** A change of one free row leaves the workers, replays and posts of the others alone. */
  lemma OthersStay(s: System, next: System, id: WhopId, r: Reward)
    requires SysInv(s) && id in s.db.rewards && NoStake(s, id) && NoReplay(s, id)
    requires next.db == Put(s.db, id, r) && next.posts == s.posts && next.replays == s.replays
    requires next.now == s.now && s.used <= next.used
    ensures PostsOk(next) && forall k | k in next.replays :: ReplayOk(next, next.replays[k])
    ensures forall t | t in s.workers && s.workers[t].id != id :: WorkerOk(next, t, s.workers[t])
  {
    forall p | p in next.posts && MayBeAccepted(p.answer) ensures PostAnchored(next.db, p) {
      assert PostAnchored(s.db, p) && p.id != id;
    }
    forall k | k in next.replays ensures ReplayOk(next, next.replays[k]) {
      assert ReplayOk(s, s.replays[k]) && s.replays[k].id != id;
    }
    forall t | t in s.workers && s.workers[t].id != id ensures WorkerOk(next, t, s.workers[t]) {
      assert WorkerOk(s, t, s.workers[t]);
    }
  }

  lemma ClaimStep(s: System, e: Event)
    requires SysInv(s) && e.Claim? && Enabled(s, e)
    ensures SysInv(Step(s, e))
  {
    var next := Step(s, e);
    Free(s, e.id);
    OthersStay(s, next, e.id, next.db.rewards[e.id]);
    forall t | t in next.workers ensures WorkerOk(next, t, next.workers[t]) {
      if t != e.t { assert WorkerOk(s, t, s.workers[t]); }
    }
    assert forall id | id in s.db.rewards && id != e.id :: next.db.rewards[id] == s.db.rewards[id];
  }

  lemma MarkStep(s: System, t: Token)
    requires SysInv(s) && StoreInv(s.db) && Enabled(s, Mark(t))
    ensures SysInv(Step(s, Mark(t)))
  {
    if MarkSubmission(s.db, s.workers[t].id, t, s.now).1 {
      MarkedStep(s, t);
    } else {
      UnmarkedStep(s, t);
    }
  }

  lemma UnmarkedStep(s: System, t: Token)
    requires SysInv(s) && Enabled(s, Mark(t)) && !MarkSubmission(s.db, s.workers[t].id, t, s.now).1
    ensures SysInv(Step(s, Mark(t)))
  {
    assert WorkerOk(s, t, s.workers[t]);
    UnsubmittedReleaseSteady(s.db, s.workers[t].id, t, "preparation_retry", true);
    SteadyStep(s, Step(s, Mark(t)));
  }

  lemma MarkedStep(s: System, t: Token)
    requires SysInv(s) && StoreInv(s.db) && Enabled(s, Mark(t)) && MarkSubmission(s.db, s.workers[t].id, t, s.now).1
    ensures SysInv(Step(s, Mark(t)))
  {
    var next := Step(s, Mark(t));
    var w := s.workers[t];
    assert WorkerOk(s, t, w);
    Free(s, w.id);
    OthersStay(s, next, w.id, next.db.rewards[w.id]);
    MarkAnchors(s, t);
    forall u | u in next.workers ensures WorkerOk(next, u, next.workers[u]) {
      if u != t { assert WorkerOk(s, u, s.workers[u]); }
    }
    assert forall id | id in s.db.rewards :: next.db.rewards[id].token == s.db.rewards[id].token;
  }

  lemma MarkAnchors(s: System, t: Token)
    requires SysInv(s) && Enabled(s, Mark(t)) && MarkSubmission(s.db, s.workers[t].id, t, s.now).1
    requires StoreInv(s.db)
    ensures var next := Step(s, Mark(t)); var w := s.workers[t];
            Anchored(next.db, w.id, w.intent, w.fingerprint, s.now)
  {
    assert WorkerOk(s, t, s.workers[t]);
    assert RowOk(s.db, s.workers[t].id, s.db.rewards[s.workers[t].id]);
  }

  lemma AppendPost(s: System, p: Post)
    requires PostsOk(s) && PostAnchored(s.db, p) && p.decided < s.db.rewards[p.id].submitted.value + REPLAY_WINDOW
    ensures PostsOk(s.(posts := s.posts + [p]))
  {
    var next := s.(posts := s.posts + [p]);
    forall q | q in next.posts && MayBeAccepted(q.answer) ensures PostAnchored(next.db, q) {
      assert q in s.posts || q == p;
    }
    forall i, j | 0 <= i < j < |next.posts| && next.posts[i].id == next.posts[j].id
            && MayBeAccepted(next.posts[i].answer)
      ensures Repeats(next.posts[i], next.posts[j])
    {
      assert next.posts[i] == s.posts[i] && s.posts[i] in s.posts;
      assert PostAnchored(s.db, s.posts[i]);
      if j < |s.posts| { assert Repeats(s.posts[i], s.posts[j]); }
    }
  }

  lemma SubmitStep(s: System, t: Token, answer: Answer)
    requires SysInv(s) && Enabled(s, Submit(t, answer))
    ensures SysInv(Step(s, Submit(t, answer)))
  {
    var next := Step(s, Submit(t, answer));
    var w := s.workers[t];
    assert WorkerOk(s, t, w);
    var p := Post(w.id, w.intent, w.fingerprint, w.stage.at, s.now, answer);
    AppendPost(s, p);
    assert PostsOk(next);
    forall u | u in next.workers ensures WorkerOk(next, u, next.workers[u]) {
      assert WorkerOk(s, u, s.workers[u]);
      assert forall q | q in next.posts :: q in s.posts || q == p;
    }
    assert forall k | k in s.replays :: ReplayOk(s, s.replays[k]) ==> ReplayOk(next, s.replays[k]);
  }

  lemma SettleStep(s: System, e: Event)
    requires SysInv(s) && e.SettleApply? && Enabled(s, e)
    ensures SysInv(Step(s, e))
  {
    var next := Step(s, e);
    var w := s.workers[e.t];
    if next.db == s.db {
      SteadySelf(s.db);
      SteadyStep(s, next);
    } else if MayBeAccepted(w.stage.answer) {
      assert WorkerOk(s, e.t, w);
      SteadyStep(s, next);
    } else {
      RefusedStep(s, e);
    }
  }

  /** A refused first submission gives its row back: nothing that may be accepted hangs on it. */
  lemma RefusedStep(s: System, e: Event)
    requires SysInv(s) && e.SettleApply? && Enabled(s, e) && !MayBeAccepted(s.workers[e.t].stage.answer)
    requires Step(s, e).db != s.db
    ensures SysInv(Step(s, e))
  {
    var next := Step(s, e);
    var w := s.workers[e.t];
    assert WorkerOk(s, e.t, w);
    OthersStay(s, next, w.id, next.db.rewards[w.id]);
    forall u | u in next.workers ensures WorkerOk(next, u, next.workers[u]) {
      assert WorkerOk(s, u, s.workers[u]);
    }
    assert forall id | id in s.db.rewards && id != w.id :: next.db.rewards[id] == s.db.rewards[id];
  }

  /** Workers do not notice that some other reward's replay changes. */
  lemma ReplaysChange(s: System, next: System)
    requires SysInv(s) && next == s.(replays := next.replays)
    requires forall k | k in next.replays :: ReplayOk(s, next.replays[k])
    requires forall k | k in next.replays ::
               (exists o :: o in s.replays && s.replays[o].id == next.replays[k].id)
               || NoneInFlight(s, next.replays[k].id)
    ensures SysInv(next)
  {
    forall t | t in next.workers ensures WorkerOk(next, t, next.workers[t]) {
      assert WorkerOk(s, t, s.workers[t]);
    }
  }

  lemma ReadBackStep(s: System, e: Event)
    requires SysInv(s) && StoreInv(s.db) && e.ReadBack? && Enabled(s, e)
    ensures SysInv(Step(s, e))
  {
    var next := Step(s, e);
    ReadBackOk(s, e);
    forall k | k in next.replays ensures ReplayOk(s, next.replays[k]) {
      if k != e.k { assert ReplayOk(s, s.replays[k]); }
    }
    ReplaysChange(s, next);
  }

  lemma ReadBackOk(s: System, e: Event)
    requires StoreInv(s.db) && e.ReadBack? && Enabled(s, e)
    ensures var r := s.db.rewards[e.id];
            ReplayOk(s, Replay(e.id, r.intent.value, r.fingerprint, r.submitted.value, None))
  {
    assert RowOk(s.db, e.id, s.db.rewards[e.id]);
  }

  lemma CheckWindowStep(s: System, k: nat)
    requires SysInv(s) && Enabled(s, CheckWindow(k))
    ensures SysInv(Step(s, CheckWindow(k)))
  {
    assert ReplayOk(s, s.replays[k]);
    if InWindow(s.replays[k], s.now) {
      ReplaysChange(s, Step(s, CheckWindow(k)));
    } else {
      FlagSteady(s.db, s.replays[k].id, "application_reconciliation");
      SteadyStep(s, Step(s, CheckWindow(k)));
    }
  }

  lemma RepeatStep(s: System, k: nat, answer: Answer)
    requires SysInv(s) && Enabled(s, Repeat(k, answer))
    ensures SysInv(Step(s, Repeat(k, answer)))
  {
    var next := Step(s, Repeat(k, answer));
    var r := s.replays[k];
    assert ReplayOk(s, r);
    var p := Post(r.id, r.intent, r.fingerprint, r.decided.value, s.now, answer);
    AppendPost(s, p);
    assert PostsOk(next);
    forall u | u in next.workers ensures WorkerOk(next, u, next.workers[u]) {
      assert WorkerOk(s, u, s.workers[u]);
      assert forall q | q in next.posts :: q in s.posts || q == p;
    }
    assert forall o | o in s.replays :: ReplayOk(s, s.replays[o]) ==> ReplayOk(next, s.replays[o]);
  }

  lemma StepAppends(s: System, e: Event)
    requires Enabled(s, e)
    ensures s.posts <= Step(s, e).posts
  {
  }

  lemma WorkStep(s: System, e: Event)
    requires SysInv(s) && StoreInv(s.db) && Enabled(s, e) && !OnLedger(e)
    ensures SysInv(Step(s, e))
  {
    if e.Claim? {
      ClaimStep(s, e);
    } else if e.PromoFails? || e.Recover? {
      GiveBackStep(s, e);
    } else if e.Mark? {
      MarkStep(s, e.t);
    } else if e.Submit? {
      SubmitStep(s, e.t, e.answer);
    } else if e.SettleApply? {
      SettleStep(s, e);
    } else if e.ReadBack? {
      ReadBackStep(s, e);
    } else if e.CheckWindow? {
      CheckWindowStep(s, e.k);
    } else if e.Repeat? {
      RepeatStep(s, e.k, e.answer);
    } else {
      QuietStep(s, e);
    }
  }

  lemma StepKeeps(s: System, e: Event)
    requires SysInv(s) && StoreInv(s.db) && Enabled(s, e)
    ensures SysInv(Step(s, e)) && s.posts <= Step(s, e).posts
  {
    StepAppends(s, e);
    if OnLedger(e) {
      LedgerStep(s, e);
    } else {
      WorkStep(s, e);
    }
  }
}
