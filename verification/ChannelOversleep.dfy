/** The one way to sleep too long, as a run: an observation is leased on both of its paid routes just
    before it expires, its sender dies, and a second observation waits behind those leases. */
module ChannelOversleep {
  import opened Basics
  import opened Paths
  import opened ChannelTables
  import opened Ranking
  import opened ChannelOps
  import opened ChannelInvariant
  import opened ChannelRun
  import opened ChannelTheorems
  import opened ChannelWakeup

  const FEED := TypeFeed("other")
  const ONE := Query({}, Paid, 1, false, false)

  function Plain(id: ItemId): Item {
    Item(id, true, "other", None)
  }

  function Alone(k: JobId): Pass {
    Pass(k, [], None, [k])
  }

  function Taken(j: Job, k: JobId, token: Token, until: Time): Job {
    j.(batch := Some(Single(k)), state := JobState.Leased, token := Some(token), leaseUntil := Some(until),
       attempts := j.attempts + 1)
  }

  /** Jobs of a first observation: two paid ones, due at once, and the delayed Free one. */
  function WithJobs(jobs: map<JobId, Job>, item: Item, now: Time): map<JobId, Job> {
    jobs[JobId(item.id, ProAll) := NewJob(item, ProAll, now, now)]
        [JobId(item.id, FEED) := NewJob(item, FEED, now, now)]
        [JobId(item.id, Free) := NewJob(item, Free, now, now)]
  }

  lemma FirstObserved(db: Db, id: ItemId, now: Time)
    requires id !in db.items && id !in db.seeded && forall k | k in db.jobs :: k.item != id
    ensures RecordAll(db, [Plain(id)], now, false)
            == db.(items := db.items[id := Observed(Plain(id), now, now)], jobs := WithJobs(db.jobs, Plain(id), now))
  {
    var item := Plain(id);
    assert [item][..0] == [];
    assert RouteKeys(item) == [ProAll, FEED, Free];
    assert [ProAll, FEED, Free][..2] == [ProAll, FEED] && [ProAll, FEED][..1] == [ProAll] && [ProAll][..0] == [];
    assert AddJobs(db.jobs, item, [ProAll], now, now) == db.jobs[JobId(id, ProAll) := NewJob(item, ProAll, now, now)];
    assert AddJobs(db.jobs, item, [ProAll, FEED], now, now)
        == AddJob(AddJobs(db.jobs, item, [ProAll], now, now), item, FEED, now, now);
  }

  /** A job that is a claim's first choice and in no envelope is claimed by itself. */
  ghost predicate ClaimsAlone(db: Db, now: Time, k: JobId) {
    && Lowest(Candidates(db, now, ONE), k) && k in db.jobs && db.jobs[k].batch.None? && db.jobs[k].Live()
    && k.item in db.items && StillWanted(db, k, now) && db.limits == map[] && db.gates == map[]
  }

  lemma ChosenAlone(db: Db, now: Time, wire: Wire, k: JobId)
    requires ClaimsAlone(db, now, k)
    ensures Chosen(db, now, ONE, wire, Alone(k))
  {
    assert WithOldest(k, [], None) == [k];
  }

  lemma LeasedAlone(db: Db, k: JobId, token: Token, now: Time)
    requires k in db.jobs && db.jobs[k].batch.None? && Known(db, [k])
    ensures var next := Lease(db, Alone(k), token, now);
            && next.jobs == db.jobs[k := Taken(db.jobs[k], k, token, now + LEASE)]
            && next == db.(jobs := next.jobs, dispatches := next.dispatches, turns := next.turns)
  {
    assert (set o | o in [k]) == {k};
  }

  lemma NothingStale(db: Db, now: Time)
    requires forall o | o in db.jobs && db.jobs[o].Live() :: db.jobs[o].expires > now
    ensures Expire(db, now) == db
  {
    assert ExpireJobs(db.jobs, now) == db.jobs;
  }

  lemma AloneEnabled(s: System, wire: Wire, k: JobId, token: Token)
    requires ClaimsAlone(s.db, s.now, k) && token !in s.used && Expire(s.db, s.now) == s.db
    ensures Enabled(s, wire, Claim(ONE, [], Alone(k), token))
  {
    ChosenAlone(s.db, s.now, wire, k);
    assert Swept(s, []) == s.db;
  }

  lemma ClaimedAlone(s: System, wire: Wire, k: JobId, token: Token) returns (next: System)
    requires Inv(s.db) && Expire(s.db, s.now) == s.db && k in s.db.jobs && k.item in s.db.items
    requires s.db.jobs[k].batch.None? && Enabled(s, wire, Claim(ONE, [], Alone(k), token))
    ensures next == Step(s, wire, Claim(ONE, [], Alone(k), token))
    ensures next.db == Lease(s.db, Alone(k), token, s.now) && next.now == s.now && next.used == s.used + {token}
  {
    assert Swept(s, []) == s.db;
    assert s.(db := s.db) == s;
    next := Granted(s, Alone(k), token);
  }

  // ---------------------------------------------------------------- the run

  const HELD: ItemId := "ip-1"
  const READY: ItemId := "ip-2"

  function ProTaken(): map<JobId, Job> {
    var jobs, p := WithJobs(map[], Plain(HELD), 0.0), JobId(HELD, ProAll);
    jobs[p := Taken(jobs[p], p, 1, 1810.0)]
  }

  /** The held jobs expire at 1800 under leases that last until 1810. */
  function HeldJobs(): map<JobId, Job> {
    var f := JobId(HELD, FEED);
    ProTaken()[f := Taken(ProTaken()[f], f, 2, 1810.0)]
  }

  /** What the oversleep needs to know of the tables at the end. */
  ghost predicate Stalled(db: Db) {
    && db.jobs == WithJobs(HeldJobs(), Plain(READY), 1760.0)
    && db.items == map[HELD := Observed(Plain(HELD), 0.0, 0.0)][READY := Observed(Plain(READY), 1760.0, 1760.0)]
    && db.seeded == {} && db.limits == map[] && db.gates == map[]
  }

  /** The tables while the first observation is alone: its jobs are all that differs. */
  ghost predicate OnlyHeld(db: Db, jobs: map<JobId, Job>) {
    && db.jobs == jobs && db.items == map[HELD := Observed(Plain(HELD), 0.0, 0.0)]
    && db.seeded == {} && db.limits == map[] && db.gates == map[]
  }

  lemma FirstClaim(db: Db)
    requires OnlyHeld(db, WithJobs(map[], Plain(HELD), 0.0))
    ensures ClaimsAlone(db, 1750.0, JobId(HELD, ProAll)) && Expire(db, 1750.0) == db
  {
    var k := JobId(HELD, ProAll);
    NothingStale(db, 1750.0);
    assert RouteKeys(Plain(HELD))[0] == ProAll;
    assert Candidate(db, k, 1750.0, ONE);
    assert Candidates(db, 1750.0, ONE).Keys <= {k, JobId(HELD, FEED)};
  }

  lemma ProTakenJobs(k: JobId)
    requires k in ProTaken()
    ensures k.item == HELD && (k.route == ProAll || k.route == FEED || k.route == Free)
    ensures k.route == ProAll ==> LeaseLive(ProTaken()[k], 1750.0)
    ensures k.route != ProAll ==> ProTaken()[k] == NewJob(Plain(HELD), k.route, 0.0, 0.0)
    ensures ProTaken()[k].Live() && ProTaken()[k].expires >= 1800.0
  {
  }

  lemma SecondCandidate(db: Db)
    requires OnlyHeld(db, ProTaken())
    ensures Candidate(db, JobId(HELD, FEED), 1750.0, ONE)
    ensures forall o | Candidate(db, o, 1750.0, ONE) :: o == JobId(HELD, FEED)
  {
    var p, f := JobId(HELD, ProAll), JobId(HELD, FEED);
    ProTakenJobs(f);
    ProTakenJobs(p);
    assert RouteBusy(db, ProAll, 1750.0);
    forall o | o in db.jobs ensures o.route == FEED ==> !LeaseLive(db.jobs[o], 1750.0) { ProTakenJobs(o); }
    forall o | Candidate(db, o, 1750.0, ONE) ensures o == f { ProTakenJobs(o); }
  }

  lemma SecondClaim(db: Db)
    requires OnlyHeld(db, ProTaken())
    ensures ClaimsAlone(db, 1750.0, JobId(HELD, FEED)) && Expire(db, 1750.0) == db
  {
    var k := JobId(HELD, FEED);
    forall o | o in db.jobs && db.jobs[o].Live() ensures db.jobs[o].expires > 1750.0 { ProTakenJobs(o); }
    NothingStale(db, 1750.0);
    SecondCandidate(db);
    ProTakenJobs(k);
    assert RouteKeys(Plain(HELD))[1] == FEED;
    forall o | o in Candidates(db, 1750.0, ONE) ensures o == k {}
  }

  /** A state of the run up to the first crash. */
  ghost predicate Held(s: System, jobs: map<JobId, Job>, now: Time, used: set<Token>) {
    SysInv(s) && OnlyHeld(s.db, jobs) && s.now == now && s.used == used
  }

  /** One event of the run, as a path. */
  lemma OneStep(s: System, wire: Wire, e: Event, next: System)
    requires SysInv(s) && Enabled(s, wire, e) && next == Step(s, wire, e)
    ensures Leads(StepBy(wire), s, next) && SysInv(next)
  {
    LeadsSelf(StepBy(wire), s);
    LeadsStep(StepBy(wire), s, s, e, next);
    StepKeeps(s, wire, e);
  }

  lemma Recorded(wire: Wire) returns (t: System)
    ensures Leads(StepBy(wire), START, t) && Held(t, WithJobs(map[], Plain(HELD), 0.0), 1750.0, {})
  {
    EmptyInv();
    FirstObserved(EMPTY, HELD, 0.0);
    var s := START.(db := RecordAll(EMPTY, [Plain(HELD)], 0.0, false));
    OneStep(START, wire, Intake([Plain(HELD)], false), s);
    t := s.(now := 1750.0);
    OneStep(s, wire, Tick(1750.0), t);
    LeadsJoin(StepBy(wire), START, s, t);
  }

  lemma HeldMore(s: System, wire: Wire, jobs: map<JobId, Job>, used: set<Token>, k: JobId, token: Token)
    returns (next: System)
    requires Held(s, jobs, 1750.0, used) && k in jobs && jobs[k].batch.None? && k.item == HELD
    requires Expire(s.db, s.now) == s.db && Enabled(s, wire, Claim(ONE, [], Alone(k), token))
    ensures Leads(StepBy(wire), s, next)
    ensures Held(next, jobs[k := Taken(jobs[k], k, token, 1810.0)], 1750.0, used + {token})
  {
    next := ClaimedAlone(s, wire, k, token);
    LeasedAlone(s.db, k, token, s.now);
    OneStep(s, wire, Claim(ONE, [], Alone(k), token), next);
  }

  lemma FreshJob(route: Route)
    requires route == ProAll || route == FEED
    ensures var jobs, k := WithJobs(map[], Plain(HELD), 0.0), JobId(HELD, route);
            k in jobs && jobs[k].batch.None?
  {
  }

  lemma ProHeld(s: System, wire: Wire) returns (next: System)
    requires Held(s, WithJobs(map[], Plain(HELD), 0.0), 1750.0, {})
    ensures Leads(StepBy(wire), s, next) && Held(next, ProTaken(), 1750.0, {1})
  {
    FirstEnabled(s, wire);
    FreshJob(ProAll);
    next := HeldMore(s, wire, WithJobs(map[], Plain(HELD), 0.0), {}, JobId(HELD, ProAll), 1);
  }

  /** Both paid jobs of the held observation are leased until 1810. */
  lemma FeedHeld(s: System, wire: Wire) returns (next: System)
    requires Held(s, ProTaken(), 1750.0, {1})
    ensures Leads(StepBy(wire), s, next) && Held(next, HeldJobs(), 1750.0, {1, 2})
  {
    SecondEnabled(s, wire);
    ProTakenJobs(JobId(HELD, FEED));
    next := HeldMore(s, wire, ProTaken(), {1}, JobId(HELD, FEED), 2);
  }

  lemma FirstEnabled(s: System, wire: Wire)
    requires OnlyHeld(s.db, WithJobs(map[], Plain(HELD), 0.0)) && s.now == 1750.0 && s.used == {}
    ensures Expire(s.db, s.now) == s.db && Enabled(s, wire, Claim(ONE, [], Alone(JobId(HELD, ProAll)), 1))
  {
    FirstClaim(s.db);
    AloneEnabled(s, wire, JobId(HELD, ProAll), 1);
  }

  lemma SecondEnabled(s: System, wire: Wire)
    requires OnlyHeld(s.db, ProTaken()) && s.now == 1750.0 && s.used == {1}
    ensures Expire(s.db, s.now) == s.db && Enabled(s, wire, Claim(ONE, [], Alone(JobId(HELD, FEED)), 2))
  {
    SecondClaim(s.db);
    AloneEnabled(s, wire, JobId(HELD, FEED), 2);
  }

  lemma Died(s: System, wire: Wire) returns (later: System)
    requires Held(s, HeldJobs(), 1750.0, {1, 2})
    ensures Leads(StepBy(wire), s, later) && SysInv(later) && later.now == 1760.0 && later.db == s.db
  {
    var dead := s.(flights := map[]);
    OneStep(s, wire, Crash, dead);
    later := dead.(now := 1760.0);
    OneStep(dead, wire, Tick(1760.0), later);
    LeadsJoin(StepBy(wire), s, dead, later);
  }

  /** The senders die, and ten seconds later the next observation arrives. */
  lemma Waited(s: System, wire: Wire) returns (t: System)
    requires Held(s, HeldJobs(), 1750.0, {1, 2})
    ensures Leads(StepBy(wire), s, t) && Stalled(t.db) && t.now == 1770.0
  {
    var later := Died(s, wire);
    var seen := SecondObserved(later, wire);
    LeadsJoin(StepBy(wire), s, later, seen);
    t := seen.(now := 1770.0);
    OneStep(seen, wire, Tick(1770.0), t);
    LeadsJoin(StepBy(wire), s, seen, t);
  }

  lemma SecondObserved(later: System, wire: Wire) returns (seen: System)
    requires SysInv(later) && OnlyHeld(later.db, HeldJobs()) && later.now == 1760.0
    ensures Leads(StepBy(wire), later, seen) && SysInv(seen) && seen.now == 1760.0 && Stalled(seen.db)
  {
    FirstObserved(later.db, READY, 1760.0);
    seen := later.(db := RecordAll(later.db, [Plain(READY)], 1760.0, false));
    OneStep(later, wire, Intake([Plain(READY)], false), seen);
  }

  lemma StalledRun(wire: Wire) returns (t: System)
    ensures Leads(StepBy(wire), START, t) && Stalled(t.db) && t.now == 1770.0
  {
    var recorded := Recorded(wire);
    var pro := ProHeld(recorded, wire);
    LeadsJoin(StepBy(wire), START, recorded, pro);
    var both := FeedHeld(pro, wire);
    LeadsJoin(StepBy(wire), START, pro, both);
    t := Waited(both, wire);
    LeadsJoin(StepBy(wire), START, both, t);
  }

  // ---------------------------------------------------------------- the oversleep

  /** Which jobs there are, and what is known of each. */
  lemma StalledJobs(db: Db, k: JobId)
    requires Stalled(db) && k in db.jobs
    ensures k.item == HELD || k.item == READY
    ensures k.route == ProAll || k.route == FEED || k.route == Free
    ensures k.item == READY ==> db.jobs[k] == NewJob(Plain(READY), k.route, 1760.0, 1760.0)
    ensures k.item == HELD && !k.route.Free? ==> db.jobs[k].Live() && db.jobs[k].expires == 1800.0
  {
  }

  /** From 1800 the held jobs are expired, and only the waiting ones are live. */
  lemma StalledDue(db: Db, t: Time, k: JobId)
    requires Stalled(db) && 1800.0 <= t < 1810.0 && k in db.jobs
    ensures var due := Expire(db, t);
            && k in due.jobs
            && (k.item == HELD && !k.route.Free? ==> due.jobs[k].state.Expired?)
            && (k.item == READY ==> due.jobs[k] == NewJob(Plain(READY), k.route, 1760.0, 1760.0))
  {
    StalledJobs(db, k);
  }

  lemma StalledIdle(db: Db, t: Time, route: Route)
    requires Stalled(db) && 1800.0 <= t < 1810.0 && !route.Free?
    ensures !RouteBusy(Expire(db, t), route, t)
  {
    forall k | k in db.jobs && k.route == route ensures !LeaseLive(Expire(db, t).jobs[k], t) {
      StalledJobs(db, k);
      StalledDue(db, t, k);
    }
  }

  lemma StalledCandidate(db: Db, t: Time)
    requires Stalled(db) && 1800.0 <= t < 1810.0
    ensures Candidate(Expire(db, t), JobId(READY, ProAll), t, ONE)
  {
    StalledDue(db, t, JobId(READY, ProAll));
    StalledIdle(db, t, ProAll);
  }

  lemma StalledRank(db: Db, t: Time, k: JobId)
    requires Stalled(db) && 1800.0 <= t < 1810.0 && k in db.jobs && Candidate(Expire(db, t), k, t, ONE)
    ensures var due, first := Expire(db, t), JobId(READY, ProAll);
            first in due.jobs && !Less(ClaimRank(due, ONE, t, k), ClaimRank(due, ONE, t, first))
  {
    var first := JobId(READY, ProAll);
    StalledJobs(db, k);
    StalledDue(db, t, k);
    StalledDue(db, t, first);
  }

  lemma StalledClaim(db: Db, t: Time)
    requires Stalled(db) && 1800.0 <= t < 1810.0
    ensures ClaimsAlone(Expire(db, t), t, JobId(READY, ProAll))
  {
    var due, k := Expire(db, t), JobId(READY, ProAll);
    StalledCandidate(db, t);
    StalledDue(db, t, k);
    assert RouteKeys(Plain(READY))[0] == ProAll;
    forall o | o in Candidates(due, t, ONE) ensures !Less(Candidates(due, t, ONE)[o], Candidates(due, t, ONE)[k]) {
      StalledRank(db, t, o);
    }
  }

  lemma StalledWakes(db: Db, k: JobId)
    requires Stalled(db) && Work(db, 1770.0, Paid, k)
    ensures WakeAt(db, k) == 1810.0
  {
    var held := JobId(HELD, k.route);
    assert held in ChannelWakeup.Held(db.jobs, k.route);
    assert ChannelWakeup.Held(db.jobs, k.route) == {held};
    assert ActiveUntil(db.jobs, k.route) == 1810.0;
  }

  lemma StalledWait(db: Db, wait: Time)
    requires Stalled(db) && IsNextDue(db, 1770.0, Paid, wait)
    ensures wait == 40.0
  {
    assert Work(db, 1770.0, Paid, JobId(READY, ProAll));
    var o :| EarliestWork(db, 1770.0, Paid, o)
             && wait == Max(0.0, Max(WakeAt(db, o), GateUntil(db.gates, GlobalGate)) - 1770.0);
    StalledWakes(db, o);
  }

  /** A run after which, at every instant from 1800 until 1810, a claim on the table succeeds, yet at
      1770 the store asks to sleep until 1810. */
  lemma LeaseOfExpiringJobOversleeps(wire: Wire, t: Time, wait: Time) returns (s: System)
    requires 1800.0 <= t < 1810.0
    ensures exists states, events :: Run(wire, states, events) && states[|events|] == s
    ensures s.now == 1770.0 && ClaimSucceeds(s.db, t, ONE, wire, [], Alone(JobId(READY, ProAll)))
    ensures IsNextDue(s.db, 1770.0, Paid, wait) ==> wait == 40.0 > t - 1770.0
  {
    s := StalledRun(wire);
    StaysReachable(wire, [START], [], s);
    StalledClaim(s.db, t);
    ChosenAlone(Expire(s.db, t), t, wire, JobId(READY, ProAll));
    if IsNextDue(s.db, 1770.0, Paid, wait) { StalledWait(s.db, wait); }
  }
}
