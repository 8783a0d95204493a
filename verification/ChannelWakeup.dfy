/** When the sender may sleep: the advertised wait never passes a claim that would succeed,
    except behind a lease whose own job expires first, and then exactly there. */
module ChannelWakeup {
  import opened Basics
  import opened ChannelTables
  import opened ChannelOps
  import opened ChannelInvariant
  import opened ChannelClaim
  import opened ChannelQuiet

  const IDLE_WAIT: Time := 5.0

  /** Rows of a route that are in the leased state, live or not. */
  function Held(jobs: map<JobId, Job>, route: Route): set<JobId> {
    set k | k in jobs && k.route == route && jobs[k].state.Leased? && jobs[k].leaseUntil.Some?
  }

  ghost predicate LastHeld(jobs: map<JobId, Job>, held: set<JobId>, k: JobId) {
    && k in held
    && forall o | o in held && k in jobs && o in jobs && jobs[k].leaseUntil.Some? && jobs[o].leaseUntil.Some? ::
         jobs[o].leaseUntil.value <= jobs[k].leaseUntil.value
  }

  lemma LastHeldExists(jobs: map<JobId, Job>, held: set<JobId>)
    requires held != {} && forall k | k in held :: k in jobs && jobs[k].leaseUntil.Some?
    ensures exists k :: LastHeld(jobs, held, k)
    decreases |held|
  {
    var x :| x in held;
    var rest := held - {x};
    if rest == {} {
      assert held == {x};
      assert LastHeld(jobs, held, x);
    } else {
      LastHeldExists(jobs, rest);
      var m :| LastHeld(jobs, rest, m);
      var best := if jobs[m].leaseUntil.value < jobs[x].leaseUntil.value then x else m;
      assert forall o | o in held :: o == x || o in rest;
      assert LastHeld(jobs, held, best);
    }
  }

  /** LEFT JOIN (SELECT route, MAX(lease_until) ... GROUP BY route), COALESCE(..., 0) */
  ghost function ActiveUntil(jobs: map<JobId, Job>, route: Route): (m: Time)
    ensures Held(jobs, route) == {} ==> m == 0.0
    ensures forall k | k in Held(jobs, route) :: jobs[k].leaseUntil.value <= m
    ensures Held(jobs, route) != {} ==> exists k :: k in Held(jobs, route) && jobs[k].leaseUntil.value == m
  {
    if Held(jobs, route) == {} then 0.0
    else
      LastHeldExists(jobs, Held(jobs, route));
      var k :| LastHeld(jobs, Held(jobs, route), k);
      jobs[k].leaseUntil.value
  }

  function OwnLease(j: Job): Time {
    if j.state.Leased? && j.leaseUntil.Some? then j.leaseUntil.value else 0.0
  }

  ghost function WakeAt(db: Db, k: JobId): Time
    requires k in db.jobs
  {
    Max(Max(db.jobs[k].due, db.jobs[k].nextAttempt),
        Max(OwnLease(db.jobs[k]),
            Max(ActiveUntil(db.jobs, k.route), GateUntil(db.gates, RouteGate(k.route)))))
  }

  predicate Work(db: Db, now: Time, audience: Audience, k: JobId) {
    k in db.jobs && db.jobs[k].Live() && db.jobs[k].expires > now && Serves(audience, k.route)
  }

  ghost predicate EarliestWork(db: Db, now: Time, audience: Audience, k: JobId) {
    && Work(db, now, audience, k)
    && forall o | o in db.jobs && Work(db, now, audience, o) :: WakeAt(db, k) <= WakeAt(db, o)
  }

  /** The wait that next_due_in reports. */
  ghost predicate IsNextDue(db: Db, now: Time, audience: Audience, wait: Time) {
    if exists k :: Work(db, now, audience, k) then
      exists k :: EarliestWork(db, now, audience, k)
                  && wait == Max(0.0, Max(WakeAt(db, k), GateUntil(db.gates, GlobalGate)) - now)
    else wait == IDLE_WAIT
  }

  /** A claim at time t on this table returns the envelope of pick. */
  ghost predicate ClaimSucceeds(db: Db, t: Time, q: Query, wire: Wire, passes: seq<Pass>, pick: Pass) {
    && q.size >= 1
    && GateUntil(db.gates, GlobalGate) <= t
    && AllRefused(Expire(db, t), t, q, wire, passes)
    && Chosen(RetireAll(Expire(db, t), passes), t, q, wire, pick)
  }

  /** No lease held on the route outlasts t. */
  ghost predicate LeasesOver(db: Db, route: Route, t: Time) {
    forall o | o in db.jobs && o.route == route && db.jobs[o].state.Leased? && db.jobs[o].leaseUntil.Some? ::
      db.jobs[o].leaseUntil.value <= t
  }

  /** Every wait of the job itself has passed at t. */
  predicate SelfReady(db: Db, k: JobId, t: Time)
    requires k in db.jobs
  {
    && db.jobs[k].due <= t && db.jobs[k].nextAttempt <= t
    && OwnLease(db.jobs[k]) <= t && GateUntil(db.gates, RouteGate(k.route)) <= t
  }

  lemma WakeIsReady(db: Db, k: JobId, t: Time)
    requires k in db.jobs && t >= 0.0
    ensures WakeAt(db, k) <= t <==> SelfReady(db, k, t) && LeasesOver(db, k.route, t)
  {
    var m := ActiveUntil(db.jobs, k.route);
    if m <= t {
      forall o | o in db.jobs && o.route == k.route && db.jobs[o].state.Leased? && db.jobs[o].leaseUntil.Some?
        ensures db.jobs[o].leaseUntil.value <= t
      {
        assert o in Held(db.jobs, k.route);
      }
    }
  }

  // ---------------------------------------------------------------- refused passes

  lemma RetireLiveRows(db: Db, p: Pass)
    requires p.first in db.jobs
    ensures forall k | k in db.jobs && Retire(db, p).jobs[k].Live() :: Retire(db, p).jobs[k] == db.jobs[k]
    ensures Retire(db, p).gates == db.gates && Retire(db, p).jobs.Keys == db.jobs.Keys
  {
  }

  /** A leased row of a busy route is not part of any refused envelope. */
  lemma LeaseElsewhereStays(db: Db, t: Time, q: Query, wire: Wire, p: Pass, o: JobId)
    requires Inv(db) && q.size >= 1 && Picked(db, t, q, wire, p)
    requires o in db.jobs && LeaseLive(db.jobs[o], t)
    ensures Retire(db, p).jobs[o] == db.jobs[o]
  {
    assert JobShape(db.jobs[o]);
    if db.jobs[p.first].batch.Some? {
      PointersShareRoute(db, o, p.first);
    } else {
      GoneAreFree(db, t, q, wire, p);
    }
  }

  /** Retiring an envelope leaves busy routes busy and live rows as they were. */
  lemma RetireKeepsBusy(db: Db, t: Time, q: Query, wire: Wire, p: Pass, route: Route)
    requires Inv(db) && q.size >= 1 && Picked(db, t, q, wire, p)
    ensures RouteBusy(db, route, t) ==> RouteBusy(Retire(db, p), route, t)
  {
    if RouteBusy(db, route, t) {
      var o :| o in db.jobs && o.route == route && LeaseLive(db.jobs[o], t);
      LeaseElsewhereStays(db, t, q, wire, p, o);
      RetireLiveRows(db, p);
      assert LeaseLive(Retire(db, p).jobs[o], t);
    }
  }

  lemma {:induction false} RefusalsKeepBusy(db: Db, t: Time, q: Query, wire: Wire, passes: seq<Pass>, route: Route)
    requires Inv(db) && NoneStale(db, t) && q.size >= 1 && AllRefused(db, t, q, wire, passes)
    ensures var after := RetireAll(db, passes);
            && (RouteBusy(db, route, t) ==> RouteBusy(after, route, t))
            && after.jobs.Keys == db.jobs.Keys && after.gates == db.gates
            && forall k | k in db.jobs && after.jobs[k].Live() :: after.jobs[k] == db.jobs[k]
  {
    if passes != [] {
      var n := |passes| - 1;
      RefusalsKeepBusy(db, t, q, wire, passes[..n], route);
      RefusedPasses(db, t, q, wire, passes[..n]);
      RetireKeepsBusy(RetireAll(db, passes[..n]), t, q, wire, passes[n], route);
      RetireLiveRows(RetireAll(db, passes[..n]), passes[n]);
    }
  }

  lemma CandidateWasReady(db: Db, due: Db, after: Db, t: Time, q: Query, k: JobId)
    requires due == Expire(db, t) && Candidate(after, k, t, q) && t >= 0.0
    requires after.jobs.Keys == due.jobs.Keys && after.gates == due.gates && after.jobs[k] == due.jobs[k]
    requires RouteBusy(due, k.route, t) ==> RouteBusy(after, k.route, t)
    ensures k in db.jobs && db.jobs[k].Live() && db.jobs[k].expires > t
    ensures SelfReady(db, k, t) && Serves(q.audience, k.route) && !RouteBusy(due, k.route, t)
  {
  }

  /** What a successful claim at t says about the table it started from. */
  lemma ClaimedRowWasReady(db: Db, t: Time, q: Query, wire: Wire, passes: seq<Pass>, pick: Pass)
    requires Inv(db) && t >= 0.0 && ClaimSucceeds(db, t, q, wire, passes, pick)
    ensures var k := pick.first;
            && k in db.jobs && db.jobs[k].Live() && db.jobs[k].expires > t
            && SelfReady(db, k, t) && Serves(q.audience, k.route)
            && !RouteBusy(Expire(db, t), k.route, t)
  {
    var due := Expire(db, t);
    ExpireKeeps(db, t);
    NothingStaleLeft(db, t);
    RefusalsKeepBusy(due, t, q, wire, passes, pick.first.route);
    PickedIsCandidate(RetireAll(due, passes), t, q, wire, pick);
    CandidateWasReady(db, due, RetireAll(due, passes), t, q, pick.first);
  }

  lemma NothingStaleLeft(db: Db, t: Time)
    ensures NoneStale(Expire(db, t), t)
  {
  }

  lemma PickedIsCandidate(db: Db, t: Time, q: Query, wire: Wire, pick: Pass)
    requires Chosen(db, t, q, wire, pick)
    ensures Candidate(db, pick.first, t, q) && pick.first in db.jobs && db.jobs[pick.first].Live()
  {
  }

  /** The reported wait is at most t - now exactly when some remaining job is ready at t on a
      route none of whose leases, expired jobs included, outlasts t. */
  lemma WaitExactly(db: Db, now: Time, t: Time, audience: Audience, wait: Time)
    requires 0.0 <= now <= t && IsNextDue(db, now, audience, wait)
    requires GateUntil(db.gates, GlobalGate) <= t
    requires exists k :: Work(db, now, audience, k)
    ensures wait <= t - now <==>
            exists k :: Work(db, now, audience, k) && SelfReady(db, k, t) && LeasesOver(db, k.route, t)
  {
    var m :| EarliestWork(db, now, audience, m)
             && wait == Max(0.0, Max(WakeAt(db, m), GateUntil(db.gates, GlobalGate)) - now);
    WakeIsReady(db, m, t);
    if k :| Work(db, now, audience, k) && SelfReady(db, k, t) && LeasesOver(db, k.route, t) {
      WakeIsReady(db, k, t);
    }
  }

  /** No leased job expires by t while its lease runs past t. */
  ghost predicate NoLeaseOutlivesItsJob(db: Db, t: Time) {
    forall o | o in db.jobs && db.jobs[o].state.Leased? && db.jobs[o].leaseUntil.Some? ::
      db.jobs[o].expires > t || db.jobs[o].leaseUntil.value <= t
  }

  /** No oversleep: if a claim at t would return an envelope and no lease outlives its own job
      then, the reported wait has passed by t. */
  lemma NoOversleep(db: Db, now: Time, t: Time, q: Query, wire: Wire, passes: seq<Pass>, pick: Pass, wait: Time)
    requires Inv(db) && 0.0 <= now <= t && ClaimSucceeds(db, t, q, wire, passes, pick)
    requires NoLeaseOutlivesItsJob(db, t)
    requires IsNextDue(db, now, q.audience, wait)
    ensures wait <= t - now
  {
    ClaimedRowWasReady(db, t, q, wire, passes, pick);
    var k := pick.first;
    assert Work(db, now, q.audience, k);
    var due := Expire(db, t);
    forall o | o in db.jobs && o.route == k.route && db.jobs[o].state.Leased? && db.jobs[o].leaseUntil.Some?
      ensures db.jobs[o].leaseUntil.value <= t
    {
      assert db.jobs[o].expires > t ==> due.jobs[o] == db.jobs[o];
    }
    assert LeasesOver(db, k.route, t);
    WaitExactly(db, now, t, q.audience, wait);
  }

  /** When no work is reported, no later claim on the unchanged table succeeds: a claim that
      does returns a job that counted as work. */
  lemma SuccessMeansWork(db: Db, now: Time, t: Time, q: Query, wire: Wire, passes: seq<Pass>, pick: Pass)
    requires Inv(db) && 0.0 <= now <= t && ClaimSucceeds(db, t, q, wire, passes, pick)
    ensures Work(db, now, q.audience, pick.first)
  {
    ClaimedRowWasReady(db, t, q, wire, passes, pick);
  }
}
