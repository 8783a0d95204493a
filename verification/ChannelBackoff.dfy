/** Retry times hold: between a retryable reply and the end of its delay no claim can take a member
    of the envelope, whoever else works on the store; and a cooldown holds back its route. */
module ChannelBackoff {
  import opened Basics
  import opened ChannelTables
  import opened Provider
  import opened ChannelOps
  import opened ChannelInvariant
  import opened ChannelClaim
  import opened ChannelQuiet
  import opened ChannelRun
  import opened ChannelSender
  import opened ChannelEffects
  import opened ChannelTheorems

  /** No member is leased, and none may be tried before then. */
  ghost predicate Resting(db: Db, d: DispatchId, until: Time) {
    && d in db.dispatches
    && forall k | k in db.jobs && db.jobs[k].batch == Some(d) ::
         !db.jobs[k].state.Leased? && (db.jobs[k].state.Pending? ==> db.jobs[k].nextAttempt >= until)
  }

  /** The envelope keeps its rows, and each stays as it is or is retired. */
  ghost predicate LeavesAlone(a: Db, b: Db, d: DispatchId) {
    (d in a.dispatches ==> d in b.dispatches) && RowsAlone(a.jobs, b.jobs, d)
  }

  ghost predicate RowsAlone(a: map<JobId, Job>, b: map<JobId, Job>, d: DispatchId) {
    && (forall k | k in a && a[k].batch == Some(d) :: k in b && b[k].batch == Some(d))
    && (forall k | k in b && b[k].batch == Some(d) ::
          k in a && a[k].batch == Some(d) && (b[k] == a[k] || !b[k].Live()))
  }

  lemma RestsOn(a: Db, b: Db, d: DispatchId, until: Time)
    requires Resting(a, d, until) && LeavesAlone(a, b, d)
    ensures Resting(b, d, until) && RowsOf(b.jobs, d) == RowsOf(a.jobs, d)
  {
  }

  lemma AloneTrans(a: Db, b: Db, c: Db, d: DispatchId)
    requires LeavesAlone(a, b, d) && LeavesAlone(b, c, d)
    ensures LeavesAlone(a, c, d)
  {
  }

  // ---------------------------------------------------------------- intake and sweeps

  lemma AddAlone(db: Db, item: Item, route: Route, firstSeen: Time, now: Time, d: DispatchId)
    ensures LeavesAlone(db, db.(jobs := AddJob(db.jobs, item, route, firstSeen, now)), d)
  {
  }

  lemma {:induction false} AddsAlone(db: Db, item: Item, routes: seq<Route>, firstSeen: Time, now: Time, d: DispatchId)
    ensures LeavesAlone(db, db.(jobs := AddJobs(db.jobs, item, routes, firstSeen, now)), d)
  {
    if routes != [] {
      var n := |routes| - 1;
      AddsAlone(db, item, routes[..n], firstSeen, now, d);
      var mid := db.(jobs := AddJobs(db.jobs, item, routes[..n], firstSeen, now));
      AddAlone(mid, item, routes[n], firstSeen, now, d);
      AloneTrans(db, mid, db.(jobs := AddJobs(db.jobs, item, routes, firstSeen, now)), d);
    }
  }

  lemma RecordAlone(db: Db, item: Item, now: Time, seedOnly: bool, d: DispatchId)
    ensures LeavesAlone(db, RecordItem(db, item, now, seedOnly), d)
  {
    var seen := Observe(db, item, now);
    var marked := if seedOnly then Seed(seen, item.id) else seen;
    assert LeavesAlone(db, marked, d);
    if item.id !in marked.seeded {
      AddsAlone(marked, item, RouteKeys(item), marked.items[item.id].firstSeen, now, d);
      AloneTrans(db, marked, RecordItem(db, item, now, seedOnly), d);
    }
  }

  lemma {:induction false} RecordAllAlone(db: Db, items: seq<Item>, now: Time, seedOnly: bool, d: DispatchId)
    ensures LeavesAlone(db, RecordAll(db, items, now, seedOnly), d)
  {
    if items != [] {
      var n := |items| - 1;
      RecordAllAlone(db, items[..n], now, seedOnly, d);
      var mid := RecordAll(db, items[..n], now, seedOnly);
      RecordAlone(mid, items[n], now, seedOnly, d);
      AloneTrans(db, mid, RecordAll(db, items, now, seedOnly), d);
    }
  }

  lemma RetiredRows(jobs: map<JobId, Job>, e: DispatchId, token: Option<Token>, gone: set<JobId>, d: DispatchId)
    ensures RowsAlone(jobs, CancelJobs(jobs, e, token), d) && RowsAlone(jobs, SkipJobs(jobs, gone), d)
  {
  }

  lemma CancelAlone(db: Db, e: DispatchId, token: Option<Token>, d: DispatchId)
    ensures LeavesAlone(db, Cancel(db, e, token), d)
  {
    RetiredRows(db.jobs, e, token, {}, d);
  }

  lemma RetireAlone(db: Db, p: Pass, d: DispatchId)
    requires p.first in db.jobs
    ensures LeavesAlone(db, Retire(db, p), d)
  {
    if db.jobs[p.first].batch.Some? {
      CancelAlone(db, db.jobs[p.first].batch.value, None, d);
    } else {
      RetiredRows(db.jobs, d, None, Gone(db, p.rows), d);
    }
  }

  lemma {:induction false} RetireAllAlone(db: Db, passes: seq<Pass>, d: DispatchId)
    ensures LeavesAlone(db, RetireAll(db, passes), d)
  {
    if passes != [] {
      var n := |passes| - 1;
      var before := RetireAll(db, passes[..n]);
      RetireAllAlone(db, passes[..n], d);
      if passes[n].first in before.jobs {
        RetireAlone(before, passes[n], d);
        AloneTrans(db, before, Retire(before, passes[n]), d);
      }
    }
  }

  lemma SweptAlone(s: System, passes: seq<Pass>, d: DispatchId)
    ensures LeavesAlone(s.db, Expire(s.db, s.now), d) && LeavesAlone(s.db, Swept(s, passes), d)
  {
    RetireAllAlone(Expire(s.db, s.now), passes, d);
    AloneTrans(s.db, Expire(s.db, s.now), Swept(s, passes), d);
  }

  // ---------------------------------------------------------------- claims and settlements

  /** A claim in the meantime takes other rows. */
  lemma LeaseAlone(db: Db, now: Time, q: Query, wire: Wire, p: Pass, token: Token, d: DispatchId, until: Time)
    requires Inv(db) && q.size >= 1 && Chosen(db, now, q, wire, p) && Known(db, p.rows)
    requires Resting(db, d, until) && now < until
    ensures LeavesAlone(db, Lease(db, p, token, now), d)
  {
    assert db.jobs[p.first].batch != Some(d);
    LeaseElsewhere(db, now, q, wire, p, token, d);
  }

  /** Nobody owns the envelope, so its settlements by late senders only cancel. */
  lemma NobodyOwns(db: Db, b: Batch, until: Time)
    requires Inv(db) && Names(db, b) && Resting(db, b.id, until)
    ensures !Owned(db, b)
  {
    if Owned(db, b) { OwnedIsFrozen(db, b); }
  }

  lemma DisownAlone(db: Db, b: Batch, d: DispatchId)
    ensures LeavesAlone(db, Disown(db, b), d)
  {
    if !Superseded(db, b) { CancelAlone(db, b.id, Some(b.token), d); }
  }

  lemma ValidateAlone(db: Db, b: Batch, now: Time, d: DispatchId)
    requires ForeignKeys(db)
    ensures LeavesAlone(db, ValidateDispatch(db, b, now).0, d)
  {
    DisownAlone(db, b, d);
    CancelAlone(db, b.id, Some(b.token), d);
  }

  /** Only rows of another envelope change, and none of them comes to point here. */
  ghost predicate Elsewhere(a: map<JobId, Job>, b: map<JobId, Job>, e: DispatchId) {
    && b.Keys == a.Keys
    && forall k | k in a :: b[k] == a[k] || (a[k].batch == Some(e) && (b[k].batch == Some(e) || b[k].batch.None?))
  }

  lemma ElsewhereAlone(a: map<JobId, Job>, b: map<JobId, Job>, e: DispatchId, d: DispatchId)
    requires Elsewhere(a, b, e) && e != d
    ensures RowsAlone(a, b, d)
  {
  }

  lemma RetryElsewhere(jobs: map<JobId, Job>, e: DispatchId, token: Token, at: Time, reason: Reason, counted: bool)
    ensures Elsewhere(jobs, RetryJobs(jobs, e, token, at, reason, counted), e)
  {
  }

  lemma FinishElsewhere(jobs: map<JobId, Job>, e: DispatchId, token: Token, state: JobState, messageId: Option<string>,
                        reason: Reason, now: Time)
    ensures Elsewhere(jobs, FinishJobs(jobs, e, token, state, messageId, reason, now), e)
  {
  }

  lemma SplitElsewhere(jobs: map<JobId, Job>, e: DispatchId, token: Token, now: Time)
    ensures Elsewhere(jobs, HoldJobs(jobs, e, token), e) && Elsewhere(jobs, FailJobs(jobs, e), e)
    ensures Elsewhere(jobs, ReleaseJobs(jobs, e, token, now), e)
  {
  }

  lemma RetryAlone(db: Db, b: Batch, now: Time, delay: Time, reason: Reason, counted: bool, ambiguous: bool,
                   d: DispatchId, until: Time)
    requires Inv(db) && Names(db, b) && Resting(db, d, until)
    ensures LeavesAlone(db, RetryBatch(db, b, now, delay, reason, counted, ambiguous).0, d)
  {
    DisownAlone(db, b, d);
    if b.id == d {
      NobodyOwns(db, b, until);
    } else if Owned(db, b) {
      OwnedRetryAlone(db, b, now, delay, reason, counted, ambiguous, d);
    }
  }

  lemma OwnedRetryAlone(db: Db, b: Batch, now: Time, delay: Time, reason: Reason, counted: bool, ambiguous: bool,
                        d: DispatchId)
    requires Owned(db, b) && b.id != d
    ensures LeavesAlone(db, RetryBatch(db, b, now, delay, reason, counted, ambiguous).0, d)
  {
    var next := RetriedIs(db, b, now, delay, reason, counted, ambiguous);
    RetriedAlone(db, b, now + Max(0.01, delay), reason, counted, next, d);
  }

  lemma RetriedIs(db: Db, b: Batch, now: Time, delay: Time, reason: Reason, counted: bool, ambiguous: bool)
    returns (next: Db)
    requires Owned(db, b)
    ensures next == RetryBatch(db, b, now, delay, reason, counted, ambiguous).0
    ensures next.jobs == RetryJobs(db.jobs, b.id, b.token, now + Max(0.01, delay), reason, counted)
    ensures next.dispatches.Keys == db.dispatches.Keys
  {
    next := RetryBatch(db, b, now, delay, reason, counted, ambiguous).0;
  }

  lemma RetriedAlone(db: Db, b: Batch, at: Time, reason: Reason, counted: bool, next: Db, d: DispatchId)
    requires b.id != d && (d in db.dispatches ==> d in next.dispatches)
    requires next.jobs == RetryJobs(db.jobs, b.id, b.token, at, reason, counted)
    ensures LeavesAlone(db, next, d)
  {
    RetryElsewhere(db.jobs, b.id, b.token, at, reason, counted);
    ElsewhereAlone(db.jobs, next.jobs, b.id, d);
  }

  lemma FinishAlone(db: Db, b: Batch, state: JobState, messageId: Option<string>, reason: Reason, now: Time,
                    d: DispatchId, until: Time)
    requires Inv(db) && Names(db, b) && Resting(db, d, until)
    ensures LeavesAlone(db, FinishBatch(db, b, state, messageId, reason, now).0, d)
  {
    DisownAlone(db, b, d);
    if b.id == d {
      NobodyOwns(db, b, until);
    } else {
      FinishElsewhere(db.jobs, b.id, b.token, state, messageId, reason, now);
      ElsewhereAlone(db.jobs, FinishJobs(db.jobs, b.id, b.token, state, messageId, reason, now), b.id, d);
    }
  }

  lemma SplitAlone(db: Db, b: Batch, now: Time, d: DispatchId, until: Time)
    requires Inv(db) && Names(db, b) && Resting(db, d, until)
    ensures LeavesAlone(db, SplitRejected(db, b, now).0, d)
  {
    DisownAlone(db, b, d);
    CancelAlone(db, b.id, Some(b.token), d);
    if b.id == d {
      NobodyOwns(db, b, until);
    } else {
      SplitElsewhere(db.jobs, b.id, b.token, now);
      ElsewhereAlone(db.jobs, HoldJobs(db.jobs, b.id, b.token), b.id, d);
      ElsewhereAlone(db.jobs, FailJobs(db.jobs, b.id), b.id, d);
      ElsewhereAlone(db.jobs, ReleaseJobs(db.jobs, b.id, b.token, now), b.id, d);
    }
  }

  // ---------------------------------------------------------------- every event

  lemma FlightAlone(s: System, wire: Wire, e: Event, d: DispatchId, until: Time)
    requires SysInv(s) && Enabled(s, wire, e) && Resting(s.db, d, until)
    requires e.Validate? || e.Stop? || e.NoDestination? || e.Settle?
    ensures LeavesAlone(s.db, Step(s, wire, e).db, d)
  {
    var b := s.flights[e.t].batch;
    match e
    case Validate(t) => ValidateAlone(s.db, b, s.now, d);
    case Stop(t) => RetryAlone(s.db, b, s.now, 0.01, Other("stopping"), false, false, d, until);
    case NoDestination(t) =>
      FinishAlone(s.db, b, JobState.Failed, None, Other("missing_destination"), s.now, d, until);
    case Settle(t, messageId, delay, reason) => SettleAlone(s, e, d, until);
  }

  lemma SettleAlone(s: System, e: Event, d: DispatchId, until: Time)
    requires SysInv(s) && e.Settle? && e.t in s.flights && s.flights[e.t].stage.Replied? && Resting(s.db, d, until)
    ensures var f := s.flights[e.t];
            LeavesAlone(s.db, Settled(s.db, f.batch, f.stage.reply, s.now, e.messageId, e.delay, e.reason), d)
  {
    var b := s.flights[e.t].batch;
    match SettlementFor(s.flights[e.t].stage.reply, b.attempts)
    case SettleSent => FinishAlone(s.db, b, Sent, Some(e.messageId), NoReason, s.now, d, until);
    case SettleFailed => FinishAlone(s.db, b, JobState.Failed, None, e.reason, s.now, d, until);
    case SettleSplit => SplitAlone(s.db, b, s.now, d, until);
    case SettleRetry(counted, ambiguous) =>
      RetryAlone(s.db, b, s.now, e.delay, e.reason, counted, ambiguous, d, until);
  }

  lemma ClaimAlone(s: System, wire: Wire, e: Event, d: DispatchId, until: Time)
    requires SysInv(s) && e.Claim? && Enabled(s, wire, e) && Resting(s.db, d, until) && s.now < until
    ensures LeavesAlone(s.db, Step(s, wire, e).db, d)
  {
    SweptAlone(s, e.passes, d);
    var db := Swept(s, e.passes);
    RestsOn(s.db, db, d, until);
    SweepKeeps(s, e.q, wire, e.passes);
    LeaseKeeps(db, s.now, e.q, wire, e.pick, e.token);
    LeaseAlone(db, s.now, e.q, wire, e.pick, e.token, d, until);
    AloneTrans(s.db, db, Lease(db, e.pick, e.token, s.now), d);
  }

  /** No event before that time touches a resting envelope but to retire it. */
  lemma StepRests(s: System, wire: Wire, e: Event, d: DispatchId, until: Time)
    requires SysInv(s) && Enabled(s, wire, e) && Resting(s.db, d, until) && s.now < until
    ensures Resting(Step(s, wire, e).db, d, until) && RowsOf(Step(s, wire, e).db.jobs, d) == RowsOf(s.db.jobs, d)
  {
    var next := Step(s, wire, e);
    if e.Validate? || e.Stop? || e.NoDestination? || e.Settle? {
      FlightAlone(s, wire, e, d, until);
    } else if e.Claim? {
      ClaimAlone(s, wire, e, d, until);
    } else if e.ClaimNothing? {
      SweptAlone(s, e.passes, d);
    } else if e.Intake? {
      RecordAllAlone(s.db, e.items, s.now, e.seedOnly, d);
    } else if e.Sweep? {
      SweptAlone(s, [], d);
    }
    RestsOn(s.db, next.db, d, until);
  }

  lemma StepOfRun(wire: Wire, states: seq<System>, events: seq<Event>, i: nat)
    requires Run(wire, states, events) && i < |events|
    ensures SysInv(states[i]) && Enabled(states[i], wire, events[i])
    ensures states[i + 1] == Step(states[i], wire, events[i])
    ensures states[i].now <= states[i + 1].now
  {
    RunKeeps(wire, states, events, i);
    assert Next(states[i], wire, events[i], states[i + 1]);
    ClockStep(states[i], wire, events[i]);
  }

  lemma ClockStep(s: System, wire: Wire, e: Event)
    requires Inv(s.db) && Enabled(s, wire, e)
    ensures s.now <= Step(s, wire, e).now
  {
  }

  lemma {:induction false} ClockGrows(wire: Wire, states: seq<System>, events: seq<Event>, n: nat, m: nat)
    requires Run(wire, states, events) && n <= m < |states|
    ensures states[n].now <= states[m].now
    decreases m - n
  {
    if n < m {
      ClockGrows(wire, states, events, n, m - 1);
      StepOfRun(wire, states, events, m - 1);
    }
  }

  lemma {:induction false} RunRests(wire: Wire, states: seq<System>, events: seq<Event>, n: nat, m: nat, d: DispatchId,
                                    until: Time)
    requires Run(wire, states, events) && n <= m < |states|
    requires Resting(states[n].db, d, until) && states[m].now < until
    ensures Resting(states[m].db, d, until) && RowsOf(states[m].db.jobs, d) == RowsOf(states[n].db.jobs, d)
    decreases m - n
  {
    if n < m {
      StepOfRun(wire, states, events, m - 1);
      RunRests(wire, states, events, n, m - 1, d, until);
      StepRests(states[m - 1], wire, events[m - 1], d, until);
    }
  }

  // ---------------------------------------------------------------- the theorems

  /** The event settles an owned envelope behind such a reply. */
  ghost predicate GivesBack(s: System, e: Event, delay: Time) {
    && e.Settle? && e.delay == delay && e.t in s.flights && s.flights[e.t].stage.Replied?
    && Retryable(s.flights[e.t].stage.reply, s.flights[e.t].batch.attempts) && Owned(s.db, s.flights[e.t].batch)
  }

  lemma RetryRests(s: System, wire: Wire, e: Event, delay: Time)
    requires SysInv(s) && Enabled(s, wire, e) && GivesBack(s, e, delay)
    ensures Resting(Step(s, wire, e).db, s.flights[e.t].batch.id, s.now + Max(0.01, delay))
    ensures forall k | k in s.flights[e.t].batch.jobs ::
              var next := Step(s, wire, e).db;
              k in next.jobs && next.jobs[k].batch == Some(s.flights[e.t].batch.id)
              && next.jobs[k].state.Pending? && next.jobs[k].nextAttempt == s.now + Max(0.01, delay)
  {
    var f := s.flights[e.t];
    var settlement := SettlementFor(f.stage.reply, f.batch.attempts);
    RetriedRests(s.db, f.batch, s.now, delay, e.reason, settlement.countAttempt, settlement.ambiguous);
    SettlesByRetry(s, wire, e);
  }

  lemma SettlesByRetry(s: System, wire: Wire, e: Event)
    requires Inv(s.db) && Enabled(s, wire, e) && e.Settle? && GivesBack(s, e, e.delay)
    ensures var f := s.flights[e.t]; var settlement := SettlementFor(f.stage.reply, f.batch.attempts);
            && settlement.SettleRetry?
            && Step(s, wire, e).db == RetryBatch(s.db, f.batch, s.now, e.delay, e.reason, settlement.countAttempt,
                                                 settlement.ambiguous).0
  {
  }

  lemma RetriedRests(db: Db, b: Batch, now: Time, delay: Time, reason: Reason, counted: bool, ambiguous: bool)
    requires Inv(db) && Names(db, b) && Owned(db, b)
    ensures var next := RetryBatch(db, b, now, delay, reason, counted, ambiguous).0;
            && Resting(next, b.id, now + Max(0.01, delay))
            && forall k | k in b.jobs ::
                 k in next.jobs && next.jobs[k].batch == Some(b.id) && next.jobs[k].state.Pending?
                 && next.jobs[k].nextAttempt == now + Max(0.01, delay)
  {
    OwnedIsFrozen(db, b);
    forall k | k in b.jobs ensures k in RowsOf(db.jobs, b.id) {}
    RetryEffect(db, b, now, delay, reason, counted, ambiguous);
  }

  /** Behind a retryable reply no member of the envelope can be claimed before the delay has passed,
      whatever intake, other senders, takeovers and crashes do meanwhile. */
  lemma BackoffHolds(wire: Wire, states: seq<System>, events: seq<Event>, n: nat, m: nat, delay: Time, k: JobId,
                     q: Query)
    requires Run(wire, states, events) && n < |events| && n < m < |states| && GivesBack(states[n], events[n], delay)
    requires k in states[n].flights[events[n].t].batch.jobs
    requires states[m].now < states[n].now + Max(0.01, delay)
    ensures !Candidate(states[m].db, k, states[m].now, q)
  {
    StepOfRun(wire, states, events, n);
    var d := states[n].flights[events[n].t].batch.id;
    RetryRests(states[n], wire, events[n], delay);
    RunRests(wire, states, events, n + 1, m, d, states[n].now + Max(0.01, delay));
    assert k in RowsOf(states[n + 1].db.jobs, d);
  }

  /** So the sender's own delay holds: the provider's, or the doubled one. */
  lemma SenderBackoffHolds(wire: Wire, states: seq<System>, events: seq<Event>, n: nat, m: nat,
                           retryAfter: Option<Time>, k: JobId, q: Query)
    requires Run(wire, states, events) && n < |events| && n < m < |states|
    requires events[n].Settle? && events[n].t in states[n].flights && states[n].flights[events[n].t].stage.Replied?
    requires var f := states[n].flights[events[n].t];
             var delay := RetryDelay(f.stage.reply, retryAfter, f.batch.attempts);
             && GivesBack(states[n], events[n], delay) && k in f.batch.jobs
             && states[m].now < states[n].now + delay
    ensures !Candidate(states[m].db, k, states[m].now, q)
  {
    var f := states[n].flights[events[n].t];
    BackoffHolds(wire, states, events, n, m, RetryDelay(f.stage.reply, retryAfter, f.batch.attempts), k, q);
  }

  // ---------------------------------------------------------------- cooldowns

  lemma {:induction false} RetiredGates(db: Db, passes: seq<Pass>)
    ensures RetireAll(db, passes).gates == db.gates
  {
    if passes != [] { RetiredGates(db, passes[..|passes| - 1]); }
  }

  lemma {:induction false} RecordedGates(db: Db, items: seq<Item>, now: Time, seedOnly: bool)
    ensures RecordAll(db, items, now, seedOnly).gates == db.gates
  {
    if items != [] { RecordedGates(db, items[..|items| - 1], now, seedOnly); }
  }

  lemma FinishGates(db: Db, b: Batch, state: JobState, messageId: Option<string>, reason: Reason, now: Time)
    ensures FinishBatch(db, b, state, messageId, reason, now).0.gates == db.gates
  {
  }

  lemma RetryGates(db: Db, b: Batch, now: Time, delay: Time, reason: Reason, counted: bool, ambiguous: bool)
    ensures RetryBatch(db, b, now, delay, reason, counted, ambiguous).0.gates == db.gates
  {
  }

  lemma SplitGates(db: Db, b: Batch, now: Time)
    requires ForeignKeys(db)
    ensures SplitRejected(db, b, now).0.gates == db.gates
  {
  }

  lemma ValidateGates(db: Db, b: Batch, now: Time)
    requires ForeignKeys(db)
    ensures ValidateDispatch(db, b, now).0.gates == db.gates
  {
  }

  lemma SettledGates(db: Db, b: Batch, reply: Reply, now: Time, messageId: string, delay: Time, reason: Reason)
    requires ForeignKeys(db)
    ensures Settled(db, b, reply, now, messageId, delay, reason).gates == db.gates
  {
    match SettlementFor(reply, b.attempts)
    case SettleSent => FinishGates(db, b, Sent, Some(messageId), NoReason, now);
    case SettleSplit => SplitGates(db, b, now);
    case SettleFailed => FinishGates(db, b, JobState.Failed, None, reason, now);
    case SettleRetry(counted, ambiguous) => RetryGates(db, b, now, delay, reason, counted, ambiguous);
  }

  /** A sender's own transactions move no gate. */
  lemma FlightGates(s: System, wire: Wire, e: Event)
    requires SysInv(s) && Enabled(s, wire, e) && (e.Validate? || e.Stop? || e.NoDestination? || e.Settle?)
    ensures Step(s, wire, e).db.gates == s.db.gates
  {
    var f := s.flights[e.t];
    match e
    case Validate(_) => ValidateGates(s.db, f.batch, s.now);
    case Stop(_) => RetryGates(s.db, f.batch, s.now, 0.01, Other("stopping"), false, false);
    case NoDestination(_) =>
      FinishGates(s.db, f.batch, JobState.Failed, None, Other("missing_destination"), s.now);
    case Settle(_, messageId, delay, reason) =>
      SettledGates(s.db, f.batch, f.stage.reply, s.now, messageId, delay, reason);
  }

  lemma ClaimGates(s: System, wire: Wire, e: Event)
    requires SysInv(s) && Enabled(s, wire, e) && (e.Claim? || e.ClaimNothing?)
    ensures Step(s, wire, e).db.gates == s.db.gates
  {
    RetiredGates(Expire(s.db, s.now), e.passes);
  }

  /** Only a cooldown moves a gate, and only later. */
  lemma StepGates(s: System, wire: Wire, e: Event, g: Gate)
    requires SysInv(s) && Enabled(s, wire, e) && g in s.db.gates
    ensures g in Step(s, wire, e).db.gates && s.db.gates[g] <= Step(s, wire, e).db.gates[g]
  {
    if e.Claim? || e.ClaimNothing? {
      ClaimGates(s, wire, e);
    } else if e.Intake? {
      RecordedGates(s.db, e.items, s.now, e.seedOnly);
    } else if e.Validate? || e.Stop? || e.NoDestination? || e.Settle? {
      FlightGates(s, wire, e);
    }
  }

  lemma GateStays(wire: Wire, states: seq<System>, events: seq<Event>, k: nat, g: Gate)
    requires Run(wire, states, events) && k < |events| && g in states[k].db.gates
    ensures g in states[k + 1].db.gates && states[k].db.gates[g] <= states[k + 1].db.gates[g]
  {
    StepOfRun(wire, states, events, k);
    StepGates(states[k], wire, events[k], g);
  }

  lemma {:induction false} GatesStay(wire: Wire, states: seq<System>, events: seq<Event>, n: nat, m: nat, g: Gate)
    requires Run(wire, states, events) && n <= m < |states| && g in states[n].db.gates
    ensures g in states[m].db.gates && states[n].db.gates[g] <= states[m].db.gates[g]
    decreases m - n
  {
    if n < m {
      GatesStay(wire, states, events, n, m - 1, g);
      GateStays(wire, states, events, m - 1, g);
    }
  }

  /** A cooldown holds until its time: a global one stops every claim, a route's own its candidates. */
  lemma CooldownHolds(wire: Wire, states: seq<System>, events: seq<Event>, n: nat, m: nat, k: JobId, q: Query)
    requires Run(wire, states, events) && n < |events| && n < m < |states| && events[n].Cooldown?
    requires states[m].now < events[n].until
    ensures events[n].gate == GlobalGate && m < |events| ==> !events[m].Claim?
    ensures events[n].gate == RouteGate(k.route) ==> !Candidate(states[m].db, k, states[m].now, q)
  {
    StepOfRun(wire, states, events, n);
    GatesStay(wire, states, events, n + 1, m, events[n].gate);
    if m < |events| { StepOfRun(wire, states, events, m); }
  }
}
