/** Whole runs of the personal alert outbox: intake, watch edits, several workers, crashes and
    arbitrary POST outcomes. At most one POST per alert may ever have been accepted. */
module RequestRun {
  import opened Basics
  import P = Paths
  import opened Ranking
  import opened Provider
  import opened RequestTables
  import opened RequestIndex

  // ---------------------------------------------------------------- worker decisions

  datatype Conclusion = ConcludeSent | ConcludeReview | ConcludeFailed(dm: Option<DmStatus>) | ConcludeRetry

  /** What a worker settles after its product POST. */
  function ConclusionFor(reply: Reply): Conclusion {
    if reply == Created(true) then ConcludeSent
    else if Effect(reply).MayHaveBeenAccepted() then ConcludeReview
    else
      match StatusOf(reply)
      case Some(404) => ConcludeFailed(Some(NeedsTest))
      case Some(403) => ConcludeFailed(Some(Blocked))
      case Some(429) => ConcludeRetry
      case Some(400) => ConcludeFailed(None)
      case Some(401) => ConcludeFailed(None)
      case _ => ConcludeRetry
  }

  // ---------------------------------------------------------------- the system

  /** Held: claimed and being checked. Committed: possible submission is durable. */
  datatype Stage = Held | Committed | Replied(reply: Reply)

  datatype Worker = Worker(alert: AlertId, stage: Stage)

  datatype Post = Post(alert: AlertId, token: Token, reply: Reply)

  datatype System = System(
    db: Db, now: Time, workers: map<Token, Worker>, used: set<Token>, posts: seq<Post>)

  const START := System(EMPTY, 0.0, map[], {}, [])

  datatype Event =
    | Tick(later: Time)
    | AddWatch(user: UserId, m: Matcher, minimum: Option<nat>)
    | EditWatch(user: UserId, id: RequestId, m: Matcher, minimum: Option<nat>)
    | DeleteWatch(id: RequestId)
    | RevokeUser(user: UserId)
    | SetDmStatus(user: UserId, status: DmStatus, channel: Option<nat>)
    | ExpireOverdue
    | Intake(item: Item, seedOnly: bool, users: seq<UserId>)
    | Claim(rows: seq<AlertId>, tokens: seq<Token>)
    | GiveUp(t: Token, state: AlertState)
    | GiveBack(t: Token, delay: Time)
    | Begin(t: Token, channel: Option<nat>)
    | Submit(t: Token, reply: Reply)
    | Conclude(t: Token, messageId: nat, delay: Time)
    | Doubt(t: Token)
    | Drop(t: Token)
    | Crash

  ghost predicate ClaimRows(db: Db, now: Time, rows: seq<AlertId>, tokens: seq<Token>, used: set<Token>) {
    && TopOf(DueAlerts(db, now), 20, rows)
    && |tokens| == |rows| && Distinct(tokens)
    && forall t | t in tokens :: t !in used
  }

  ghost predicate Enabled(s: System, e: Event) {
    match e
    case Tick(later) => s.now <= later
    case AddWatch(user, m, _) =>
      m != Keywords({}) && !HasMatcher(s.db, user, m) && |Owned(s.db, user)| < MAX_REQUESTS
    case EditWatch(user, id, m, _) => m != Keywords({}) && MayEdit(s.db, user, id, m)
    case Claim(rows, tokens) => ClaimRows(Swept(s.db, s.now), s.now, rows, tokens, s.used)
    case GiveUp(t, state) => t in s.workers && s.workers[t].stage.Held? && (state.Failed? || state.Cancelled?)
    // Before submission, also after a render failure, a safe retry is possible.
    case GiveBack(t, _) => t in s.workers && !s.workers[t].stage.Replied?
    case Begin(t, _) => t in s.workers && s.workers[t].stage.Held?
    case Submit(t, _) => t in s.workers && s.workers[t].stage.Committed?
    case Conclude(t, _, _) => t in s.workers && s.workers[t].stage.Replied?
    // An unexpected failure from the submission on is never taken for a refusal.
    case Doubt(t) => t in s.workers && !s.workers[t].stage.Held?
    case Drop(t) => t in s.workers
    case _ => true
  }

  function Concluded(db: Db, a: AlertId, t: Token, reply: Reply, now: Time, messageId: nat, delay: Time): Db {
    match ConclusionFor(reply)
    case ConcludeSent => Settle(db, a, t, Sent, Some(messageId)).0
    case ConcludeReview => Settle(db, a, t, Review, None).0
    case ConcludeFailed(dm) =>
      Settle(if dm.Some? then SetDm(db, a.user, dm.value, None) else db, a, t, Failed, None).0
    case ConcludeRetry => Retry(db, a, t, now, delay).0
  }

  /** The claim's effect: the rows tried, and the one that stays leased. */
  function Claimed(s: System, rows: seq<AlertId>, tokens: seq<Token>): System
    requires |tokens| == |rows| && forall a | a in rows :: a in Swept(s.db, s.now).alerts
  {
    var (db, n) := TryRows(Swept(s.db, s.now), rows, tokens, s.now);
    s.(db := db, used := s.used + (set t | t in tokens),
       workers := if n < |rows| then s.workers[tokens[n] := Worker(rows[n], Held)] else s.workers)
  }

  ghost function Step(s: System, e: Event): System
    requires Enabled(s, e)
  {
    match e
    case Tick(later) => s.(now := later)
    case AddWatch(user, m, minimum) => s.(db := Insert(s.db, user, m, minimum, s.now))
    case EditWatch(user, id, m, minimum) => s.(db := Edit(s.db, user, id, m, minimum, s.now))
    case DeleteWatch(id) => s.(db := Delete(s.db, id))
    case RevokeUser(user) => s.(db := Revoke(s.db, user))
    case SetDmStatus(user, status, channel) => s.(db := SetDm(s.db, user, status, channel))
    case ExpireOverdue => s.(db := s.db.(alerts := ExpireAlerts(s.db.alerts, s.now)))
    case Intake(item, seedOnly, users) => s.(db := MatchItem(s.db, item, s.now, seedOnly, users))
    case Claim(rows, tokens) => Claimed(s, rows, tokens)
    case GiveUp(t, state) =>
      s.(db := Settle(s.db, s.workers[t].alert, t, state, None).0, workers := s.workers - {t})
    case GiveBack(t, delay) =>
      s.(db := Retry(s.db, s.workers[t].alert, t, s.now, delay).0, workers := s.workers - {t})
    case Begin(t, channel) =>
      var (db, ok) := BeginSend(s.db, s.workers[t].alert, t, channel, s.now);
      s.(db := db, workers := if ok then s.workers[t := s.workers[t].(stage := Committed)] else s.workers - {t})
    case Submit(t, reply) =>
      s.(posts := s.posts + [Post(s.workers[t].alert, t, reply)],
         workers := s.workers[t := s.workers[t].(stage := Replied(reply))])
    case Conclude(t, messageId, delay) =>
      var w := s.workers[t];
      s.(db := Concluded(s.db, w.alert, t, w.stage.reply, s.now, messageId, delay), workers := s.workers - {t})
    case Doubt(t) => s.(db := Settle(s.db, s.workers[t].alert, t, Review, None).0, workers := s.workers - {t})
    case Drop(t) => s.(workers := s.workers - {t})
    case Crash => s.(workers := map[])
  }

  // ---------------------------------------------------------------- the invariant

  ghost predicate MayBeAccepted(p: Post) {
    Effect(p.reply).MayHaveBeenAccepted()
  }

  /** The token may have submitted, or may still submit, the alert's POST. */
  ghost predicate Stakes(s: System, a: AlertId, t: Token) {
    || (t in s.workers && s.workers[t].alert == a && !s.workers[t].stage.Held?)
    || (exists p | p in s.posts :: p.alert == a && p.token == t && MayBeAccepted(p))
  }

  /** Protected states: never claimed again, never rearmed by intake. */
  ghost predicate Protected(db: Db, a: AlertId, t: Token) {
    && a in db.alerts
    && ((db.alerts[a].state.Sending? && db.alerts[a].token == Some(t))
        || db.alerts[a].state.Sent? || db.alerts[a].state.Review?)
  }

  ghost predicate StakesInv(s: System) {
    && (forall a, t | Stakes(s, a, t) :: Protected(s.db, a, t))
    && (forall a, t, u | Stakes(s, a, t) && Stakes(s, a, u) :: t == u)
  }

  ghost predicate PostsInv(s: System) {
    && s.workers.Keys <= s.used
    && (forall p | p in s.posts :: p.token in s.used)
    && (forall i, j | 0 <= i < j < |s.posts| :: s.posts[i].token != s.posts[j].token)
    && (forall p | p in s.posts && p.token in s.workers ::
          s.workers[p.token] == Worker(p.alert, Replied(p.reply)))
  }

  ghost predicate SysInv(s: System) {
    StakesInv(s) && PostsInv(s)
  }

  /** Row changes open to everybody: protected rows stay, or an interrupted send goes to review. */
  ghost predicate Shields(a: Db, b: Db) {
    forall k | k in a.alerts && (a.alerts[k].state.Sending? || a.alerts[k].state.Sent? || a.alerts[k].state.Review?) ::
      k in b.alerts
      && (b.alerts[k] == a.alerts[k]
          || (a.alerts[k].state.Sending? && b.alerts[k] == a.alerts[k].(state := Review)))
  }

  lemma ShieldsKeep(a: Db, b: Db, k: AlertId, t: Token)
    requires Shields(a, b) && Protected(a, k, t)
    ensures Protected(b, k, t)
  {
  }

  lemma ShieldsTrans(a: Db, b: Db, c: Db)
    requires Shields(a, b) && Shields(b, c)
    ensures Shields(a, c)
  {
  }

  /** Shielded changes that add no stake keep the invariant. */
  lemma ShieldedStep(s: System, next: System)
    requires SysInv(s) && Shields(s.db, next.db) && next.posts == s.posts && s.used <= next.used
    requires next.workers.Keys <= next.used
    requires forall t | t in next.workers ::
               (t in s.workers && next.workers[t] == s.workers[t])
               || (t !in s.used && next.workers[t].stage.Held?)
    ensures SysInv(next)
  {
    forall a, t | Stakes(next, a, t) ensures Stakes(s, a, t) && Protected(next.db, a, t) {
      ShieldsKeep(s.db, next.db, a, t);
    }
  }

  // ---------------------------------------------------------------- shielded transactions

  lemma OrphansShield(db: Db)
    ensures Shields(db, CancelOrphans(db))
  {
  }

  lemma SweptShields(db: Db, now: Time)
    ensures Shields(db, Swept(db, now))
  {
    var retired := db.(alerts := RetireAlerts(db.alerts, now));
    assert Shields(db, retired);
    OrphansShield(retired);
    ShieldsTrans(db, retired, Swept(db, now));
  }

  lemma EditShields(db: Db, user: UserId, id: RequestId, m: Matcher, minimum: Option<nat>, now: Time)
    requires id in db.requests
    ensures Shields(db, Edit(db, user, id, m, minimum, now))
  {
    var r := Request(user, m, db.requests[id].revision + 1, now, minimum);
    OrphansShield(db.(requests := db.requests[id := r],
                      keywords := Index(Unindex(db.keywords, {id}), id, r),
                      matches := DropMatches(db.matches, {id})));
  }

  lemma DeleteShields(db: Db, id: RequestId)
    ensures Shields(db, Delete(db, id))
  {
    OrphansShield(Remove(db, {id}));
  }

  lemma NotifyShields(db: Db, user: UserId, item: Item, now: Time, hits: set<RequestId>)
    ensures Shields(db, Notify(db, user, item, now, hits))
  {
  }

  lemma {:induction false} NotifyAllShields(db: Db, users: seq<UserId>, item: Item, now: Time, hits: set<RequestId>)
    ensures Shields(db, NotifyAll(db, users, item, now, hits))
  {
    if users != [] {
      var n := |users| - 1;
      NotifyAllShields(db, users[..n], item, now, hits);
      NotifyShields(NotifyAll(db, users[..n], item, now, hits), users[n], item, now, hits);
      ShieldsTrans(db, NotifyAll(db, users[..n], item, now, hits), NotifyAll(db, users, item, now, hits));
    }
  }

  lemma MatchItemShields(db: Db, item: Item, now: Time, seedOnly: bool, users: seq<UserId>)
    ensures Shields(db, MatchItem(db, item, now, seedOnly, users))
  {
    var seen := Observed(db, item, now, seedOnly);
    assert Shields(db, seen);
    NotifyAllShields(seen, users, item, now, Hits(seen, item, now));
    ShieldsTrans(db, seen, MatchItem(db, item, now, seedOnly, users));
  }

  lemma {:induction false} TryRowsShields(db: Db, rows: seq<AlertId>, tokens: seq<Token>, now: Time)
    requires |tokens| >= |rows| && Distinct(rows)
    requires forall a | a in rows :: a in db.alerts && db.alerts[a].Unsent()
    ensures Shields(db, TryRows(db, rows, tokens, now).0)
    decreases |rows|
  {
    if rows != [] {
      var leased := LeaseAlert(db, rows[0], tokens[0], now);
      assert rows[0] in rows;
      assert Shields(db, leased);
      if !Hydrates(leased, rows[0], now) {
        var skipped := CancelAlert(leased, rows[0]);
        assert Shields(db, skipped);
        forall a | a in rows[1..] ensures a in skipped.alerts && skipped.alerts[a].Unsent() {
          assert a in rows && a != rows[0];
        }
        TryRowsShields(skipped, rows[1..], tokens[1..], now);
        ShieldsTrans(db, skipped, TryRows(db, rows, tokens, now).0);
      }
    }
  }

  lemma ClaimStep(s: System, rows: seq<AlertId>, tokens: seq<Token>)
    requires SysInv(s) && Enabled(s, Claim(rows, tokens))
    ensures SysInv(Step(s, Claim(rows, tokens)))
  {
    var swept := Swept(s.db, s.now);
    forall a | a in rows ensures a in swept.alerts && swept.alerts[a].Unsent() {
      assert a in DueAlerts(swept, s.now);
    }
    SweptShields(s.db, s.now);
    TryRowsShields(swept, rows, tokens, s.now);
    ShieldsTrans(s.db, swept, TryRows(swept, rows, tokens, s.now).0);
    ShieldedStep(s, Step(s, Claim(rows, tokens)));
  }

  // ---------------------------------------------------------------- token transactions

  /** Only the named alert changes, and only while its row carries the token. */
  ghost predicate OnlyRow(a: Db, b: Db, k: AlertId, t: Token) {
    && a.alerts.Keys == b.alerts.Keys
    && (forall o | o in a.alerts && o != k :: b.alerts[o] == a.alerts[o])
    && (k in a.alerts && (a.alerts[k].token != Some(t) || !(a.alerts[k].state.Leased? || a.alerts[k].state.Sending?))
        ==> b.alerts[k] == a.alerts[k])
  }

  lemma SettledRow(db: Db, a: AlertId, t: Token, state: AlertState, messageId: Option<nat>, now: Time, delay: Time)
    ensures OnlyRow(db, Settle(db, a, t, state, messageId).0, a, t)
    ensures OnlyRow(db, Retry(db, a, t, now, delay).0, a, t)
    ensures (state.Sent? || state.Review?) && Protected(db, a, t) ==>
              Protected(Settle(db, a, t, state, messageId).0, a, t)
  {
  }

  lemma ConcludedRow(db: Db, a: AlertId, t: Token, reply: Reply, now: Time, messageId: nat, delay: Time)
    ensures OnlyRow(db, Concluded(db, a, t, reply, now, messageId, delay), a, t)
    ensures MayBeAccepted(Post(a, t, reply)) && Protected(db, a, t)
            ==> Protected(Concluded(db, a, t, reply, now, messageId, delay), a, t)
  {
    match ConclusionFor(reply)
    case ConcludeSent => SettledRow(db, a, t, Sent, Some(messageId), now, delay);
    case ConcludeReview => SettledRow(db, a, t, Review, None, now, delay);
    case ConcludeFailed(dm) =>
      SettledRow(if dm.Some? then SetDm(db, a.user, dm.value, None) else db, a, t, Failed, None, now, delay);
    case ConcludeRetry => SettledRow(db, a, t, Failed, None, now, delay);
  }

  /** The holder leaves: its own stakes survive only as possibly accepted posts. */
  lemma LeaveStep(s: System, t: Token, next: System)
    requires SysInv(s) && t in s.workers
    requires next == s.(db := next.db, workers := s.workers - {t})
    requires OnlyRow(s.db, next.db, s.workers[t].alert, t)
    requires forall p | p in s.posts && p.token == t && MayBeAccepted(p) && Protected(s.db, p.alert, t) ::
               Protected(next.db, p.alert, t)
    ensures SysInv(next)
  {
    forall a, u | Stakes(next, a, u) ensures Stakes(s, a, u) && Protected(next.db, a, u) {
      assert Protected(s.db, a, u);
      if a == s.workers[t].alert && u != t && s.db.alerts[a].token == Some(t)
         && s.db.alerts[a].state.Sending? {
        assert false;
      }
    }
  }

  lemma NoPostsWhileUnsubmitted(s: System, t: Token)
    requires PostsInv(s) && t in s.workers && !s.workers[t].stage.Replied?
    ensures forall p | p in s.posts :: p.token != t
  {
  }

  lemma BeginStep(s: System, t: Token, channel: Option<nat>)
    requires SysInv(s) && Enabled(s, Begin(t, channel))
    ensures SysInv(Step(s, Begin(t, channel)))
  {
    var a := s.workers[t].alert;
    var (db, ok) := BeginSend(s.db, a, t, channel, s.now);
    var next := Step(s, Begin(t, channel));
    if ok {
      assert forall u :: Stakes(s, a, u) ==> Protected(s.db, a, u);
      forall b, u | Stakes(next, b, u)
        ensures if b == a then u == t else Stakes(s, b, u)
        ensures Protected(next.db, b, u)
      {
        if b == a {
          assert !Stakes(s, a, u);
        } else {
          assert Stakes(s, b, u);
          assert Protected(s.db, b, u);
        }
      }
    } else {
      ShieldedStep(s, next);
    }
  }

  lemma SubmitStep(s: System, t: Token, reply: Reply)
    requires SysInv(s) && Enabled(s, Submit(t, reply))
    ensures SysInv(Step(s, Submit(t, reply)))
  {
    var next := Step(s, Submit(t, reply));
    NoPostsWhileUnsubmitted(s, t);
    forall a, u | Stakes(next, a, u) ensures Stakes(s, a, u) {
      if exists p | p in next.posts :: p.alert == a && p.token == u && MayBeAccepted(p) {
        var p :| p in next.posts && p.alert == a && p.token == u && MayBeAccepted(p);
        assert p in s.posts || p == Post(s.workers[t].alert, t, reply);
      }
    }
    forall p | p in next.posts ensures p in s.posts || p == Post(s.workers[t].alert, t, reply) {}
    forall i, j | 0 <= i < j < |next.posts| ensures next.posts[i].token != next.posts[j].token {
      assert next.posts[i] == s.posts[i] && s.posts[i] in s.posts;
    }
  }

  lemma ConcludeStep(s: System, e: Event)
    requires SysInv(s) && e.Conclude? && Enabled(s, e)
    ensures SysInv(Step(s, e))
  {
    var w := s.workers[e.t];
    ConcludedRow(s.db, w.alert, e.t, w.stage.reply, s.now, e.messageId, e.delay);
    LeaveStep(s, e.t, Step(s, e));
  }

  lemma DoubtStep(s: System, t: Token)
    requires SysInv(s) && Enabled(s, Doubt(t))
    ensures SysInv(Step(s, Doubt(t)))
  {
    SettledRow(s.db, s.workers[t].alert, t, Review, None, s.now, 0.0);
    LeaveStep(s, t, Step(s, Doubt(t)));
  }

  lemma LeaveEarlyStep(s: System, e: Event)
    requires SysInv(s) && (e.GiveUp? || e.GiveBack? || e.Drop?) && Enabled(s, e)
    ensures SysInv(Step(s, e))
  {
    if !e.Drop? { NoPostsWhileUnsubmitted(s, e.t); }
    LeaveStep(s, e.t, Step(s, e));
  }

  lemma OutsideStep(s: System, e: Event)
    requires SysInv(s) && Enabled(s, e)
    requires e.Tick? || e.AddWatch? || e.EditWatch? || e.DeleteWatch? || e.RevokeUser? || e.SetDmStatus?
             || e.ExpireOverdue? || e.Intake? || e.Crash?
    ensures SysInv(Step(s, e))
  {
    if e.EditWatch? { EditShields(s.db, e.user, e.id, e.m, e.minimum, s.now); }
    if e.DeleteWatch? { DeleteShields(s.db, e.id); }
    if e.Intake? { MatchItemShields(s.db, e.item, s.now, e.seedOnly, e.users); }
    ShieldedStep(s, Step(s, e));
  }

  lemma StepKeeps(s: System, e: Event)
    requires SysInv(s) && Enabled(s, e)
    ensures SysInv(Step(s, e)) && s.posts <= Step(s, e).posts
  {
    match e
    case Claim(rows, tokens) => ClaimStep(s, rows, tokens);
    case Begin(t, channel) => BeginStep(s, t, channel);
    case Submit(t, reply) => SubmitStep(s, t, reply);
    case Conclude(_, _, _) => ConcludeStep(s, e);
    case Doubt(t) => DoubtStep(s, t);
    case GiveUp(_, _) => LeaveEarlyStep(s, e);
    case GiveBack(_, _) => LeaveEarlyStep(s, e);
    case Drop(_) => LeaveEarlyStep(s, e);
    case _ => OutsideStep(s, e);
  }

  // ---------------------------------------------------------------- runs

  ghost predicate Run(states: seq<System>, events: seq<Event>) {
    && |states| == |events| + 1
    && states[0] == START
    && forall i | 0 <= i < |events| :: Enabled(states[i], events[i]) && states[i + 1] == Step(states[i], events[i])
  }

  lemma {:induction false} RunKeeps(states: seq<System>, events: seq<Event>, i: nat)
    requires Run(states, events) && i < |states|
    ensures SysInv(states[i])
  {
    if i > 0 {
      RunKeeps(states, events, i - 1);
      StepKeeps(states[i - 1], events[i - 1]);
    }
  }

  lemma RunPosts(states: seq<System>, events: seq<Event>, k: nat)
    requires Run(states, events) && k < |events|
    ensures states[k].posts <= states[k + 1].posts
  {
    RunKeeps(states, events, k);
    StepKeeps(states[k], events[k]);
  }

  lemma PostsGrow(states: seq<System>, events: seq<Event>, i: nat, j: nat)
    requires Run(states, events) && i <= j < |states|
    ensures states[i].posts <= states[j].posts
  {
    var histories := seq(|states|, k requires 0 <= k < |states| => states[k].posts);
    forall k | 0 <= k < |histories| - 1 ensures histories[k] <= histories[k + 1] {
      RunPosts(states, events, k);
    }
    P.PrefixChain(histories, i, j);
    assert histories[i] == states[i].posts && histories[j] == states[j].posts;
  }

  /** At most one POST per (member, product) has an accepted or unknown outcome. */
  lemma AtMostOneSend(states: seq<System>, events: seq<Event>, n: nat, i: nat, j: nat)
    requires Run(states, events) && n < |states| && i < j < |states[n].posts|
    requires MayBeAccepted(states[n].posts[i]) && MayBeAccepted(states[n].posts[j])
    ensures states[n].posts[i].alert != states[n].posts[j].alert
  {
    RunKeeps(states, events, n);
    var s := states[n];
    var a := s.posts[i].alert;
    assert Stakes(s, a, s.posts[i].token);
    assert Stakes(s, s.posts[j].alert, s.posts[j].token);
  }

  /** Once a POST may have been accepted, its alert stays in sending, sent or review forever. */
  lemma SentStaysProtected(states: seq<System>, events: seq<Event>, n: nat, m: nat, i: nat)
    requires Run(states, events) && n <= m < |states| && i < |states[n].posts|
    requires MayBeAccepted(states[n].posts[i])
    ensures Protected(states[m].db, states[n].posts[i].alert, states[n].posts[i].token)
  {
    PostsGrow(states, events, n, m);
    RunKeeps(states, events, m);
    var p := states[n].posts[i];
    assert states[m].posts[i] == p;
    assert Stakes(states[m], p.alert, p.token);
  }

  // ---------------------------------------------------------------- the index over runs

  lemma {:induction false} TryRowsWatches(db: Db, rows: seq<AlertId>, tokens: seq<Token>, now: Time)
    requires |tokens| >= |rows| && forall a | a in rows :: a in db.alerts
    ensures SameWatches(db, TryRows(db, rows, tokens, now).0)
    decreases |rows|
  {
    if rows != [] {
      var leased := LeaseAlert(db, rows[0], tokens[0], now);
      if !Hydrates(leased, rows[0], now) {
        TryRowsWatches(CancelAlert(leased, rows[0]), rows[1..], tokens[1..], now);
      }
    }
  }

  /** Settlements, sweeps and the clock leave watches alone. */
  lemma DeliveryWatches(s: System, e: Event)
    requires Enabled(s, e)
    requires e.Tick? || e.SetDmStatus? || e.ExpireOverdue? || e.GiveUp? || e.GiveBack? || e.Begin?
             || e.Submit? || e.Conclude? || e.Doubt? || e.Drop? || e.Crash?
    ensures SameWatches(s.db, Step(s, e).db)
  {
    if e.Conclude? {
      ConclusionWatches(s.db, s.workers[e.t].alert, e.t, s.workers[e.t].stage.reply, s.now, e.messageId, e.delay);
    }
  }

  lemma ConclusionWatches(db: Db, a: AlertId, t: Token, reply: Reply, now: Time, messageId: nat, delay: Time)
    ensures SameWatches(db, Concluded(db, a, t, reply, now, messageId, delay))
  {
  }

  lemma WatchStep(s: System, e: Event)
    requires WatchInv(s.db) && Enabled(s, e)
    ensures WatchInv(Step(s, e).db)
  {
    match e
    case AddWatch(user, m, minimum) => InsertKeeps(s.db, user, m, minimum, s.now);
    case EditWatch(user, id, m, minimum) => EditKeeps(s.db, user, id, m, minimum, s.now);
    case DeleteWatch(id) => DeleteKeeps(s.db, id);
    case RevokeUser(user) => RevokeKeeps(s.db, user);
    case Intake(item, seedOnly, users) => MatchItemKeeps(s.db, item, s.now, seedOnly, users);
    case Claim(rows, tokens) =>
      TryRowsWatches(Swept(s.db, s.now), rows, tokens, s.now);
      SameWatchesKeep(s.db, Step(s, e).db);
    case _ =>
      DeliveryWatches(s, e);
      SameWatchesKeep(s.db, Step(s, e).db);
  }

  lemma {:induction false} RunWatches(states: seq<System>, events: seq<Event>, i: nat)
    requires Run(states, events) && i < |states|
    ensures WatchInv(states[i].db)
  {
    if i == 0 {
      EmptyWatches();
    } else {
      RunWatches(states, events, i - 1);
      WatchStep(states[i - 1], events[i - 1]);
    }
  }

  /** After any sequence of adds, edits, deletes, revocations and deliveries, the indexed query
      with its matcher finds exactly the watches that a full scan would find. */
  lemma IndexAlwaysRefinesScan(states: seq<System>, events: seq<Event>, i: nat, item: Item, now: Time)
    requires Run(states, events) && i < |states|
    ensures Hits(states[i].db, item, now) == Scan(states[i].db, item, now)
    ensures forall u :: |Owned(states[i].db, u)| <= MAX_REQUESTS
  {
    RunWatches(states, events, i);
    IndexRefinesScan(states[i].db, item, now);
  }

  /** The history the theorems speak of holds every POST: a submission appends its alert with the reply,
      and nothing else writes it. */
  lemma PostsTold(s: System, e: Event)
    requires Enabled(s, e)
    ensures var next := Step(s, e);
            if e.Submit? then |next.posts| == |s.posts| + 1 && next.posts[..|s.posts|] == s.posts
                              && next.posts[|s.posts|] == Post(s.workers[e.t].alert, e.t, e.reply)
            else next.posts == s.posts
  {
  }
}
