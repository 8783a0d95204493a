/** Headline statements over every run of channel delivery. */
module ChannelTheorems {
  import opened Basics
  import opened Paths
  import opened ChannelTables
  import opened Ranking
  import opened ChannelOps
  import opened ChannelInvariant
  import opened ChannelFill
  import opened ChannelClaim
  import opened ChannelQuiet
  import opened ChannelRun

  /** One transition. The store invariant is a premise only so that the step is defined; it is
      proved of every reachable state below. */
  ghost predicate Next(s: System, wire: Wire, e: Event, t: System) {
    Enabled(s, wire, e) && (Inv(s.db) ==> t == Step(s, wire, e))
  }

  ghost predicate Run(wire: Wire, states: seq<System>, events: seq<Event>) {
    && |states| == |events| + 1
    && states[0] == START
    && forall i | 0 <= i < |events| :: Next(states[i], wire, events[i], states[i + 1])
  }

  lemma {:induction false} RunKeeps(wire: Wire, states: seq<System>, events: seq<Event>, i: nat)
    requires Run(wire, states, events) && i < |states|
    ensures SysInv(states[i])
  {
    if i == 0 {
      EmptyInv();
    } else {
      RunKeeps(wire, states, events, i - 1);
      assert Next(states[i - 1], wire, events[i - 1], states[i]);
      StepKeeps(states[i - 1], wire, events[i - 1]);
    }
  }

  lemma {:induction false} RunPreserves(wire: Wire, states: seq<System>, events: seq<Event>, i: nat, j: nat)
    requires Run(wire, states, events) && i <= j < |states|
    ensures Preserves(states[i].db, states[j].db)
    decreases j - i
  {
    if i < j {
      RunPreserves(wire, states, events, i, j - 1);
      RunKeeps(wire, states, events, j - 1);
      assert Next(states[j - 1], wire, events[j - 1], states[j]);
      StepKeeps(states[j - 1], wire, events[j - 1]);
      PreservesTrans(states[i].db, states[j - 1].db, states[j].db);
    }
  }

  /** After a POST was accepted or its outcome is unknown, any later POST that contains one of
      its jobs is the same envelope: same id and nonce, same members, same body. */
  lemma AcceptedEnvelopeIsFinal(wire: Wire, states: seq<System>, events: seq<Event>, n: nat,
                                i: nat, j: nat, k: JobId)
    requires Run(wire, states, events) && n < |states|
    requires i < j < |states[n].posts| && MayBeAccepted(states[n].posts[i])
    requires k in states[n].posts[i].batch.jobs && k in states[n].posts[j].batch.jobs
    ensures SameEnvelopes(states[n].posts[i].batch, states[n].posts[j].batch)
    ensures states[n].posts[j].batch.body.nonce == states[n].posts[i].batch.id
  {
    RunKeeps(wire, states, events, n);
    assert WellFormed(states[n].db, states[n].posts[i].batch.id);
  }

  /** The event settles a definite 413 by splitting its envelope. */
  ghost predicate SplitsNow(s: System, e: Event) {
    && e.Settle? && e.t in s.flights && s.flights[e.t].stage.Replied? && ForeignKeys(s.db)
    && var f := s.flights[e.t];
       && SettlementFor(f.stage.reply, f.batch.attempts).SettleSplit?
       && SplitRejected(s.db, f.batch, s.now).1.SplitDone?
  }

  /** Only an envelope all of whose earlier POSTs were definitely refused is ever split. */
  lemma SplitOnlyAfterRefusals(wire: Wire, states: seq<System>, events: seq<Event>, n: nat)
    requires Run(wire, states, events) && n < |events|
    requires SplitsNow(states[n], events[n])
    ensures forall p | p in states[n].posts && p.batch.id == states[n].flights[events[n].t].batch.id ::
              !MayBeAccepted(p)
  {
    RunKeeps(wire, states, events, n);
    var s, t := states[n], events[n].t;
    assert Next(s, wire, events[n], states[n + 1]);
    var b := s.flights[t].batch;
    OwnedIsFrozen(s.db, b);
    forall p | p in s.posts && p.batch.id == b.id ensures !MayBeAccepted(p) {
      var i :| 0 <= i < |s.posts| && s.posts[i] == p;
      if MayBeAccepted(p) {
        if p.batch.token != t { OwnedByAnother(s.db, b, b.id, p.batch.token); }
        GivesBackOnlyRefusals(s.flights[t].stage.reply, b.attempts);
      }
    }
  }

  /** The frozen-envelope partition in every reachable state. */
  lemma EnvelopesPartitionJobs(wire: Wire, states: seq<System>, events: seq<Event>, n: nat, k: JobId)
    requires Run(wire, states, events) && n < |states|
    requires k in states[n].db.jobs && states[n].db.jobs[k].batch.Some?
    ensures var d := states[n].db.jobs[k].batch.value;
            && d in states[n].db.dispatches
            && k in states[n].db.dispatches[d].members
            && Distinct(states[n].db.dispatches[d].members)
            && forall o :: o in states[n].db.dispatches[d].members <==>
                           o in states[n].db.jobs && states[n].db.jobs[o].batch == Some(d)
  {
    RunKeeps(wire, states, events, n);
    var db := states[n].db;
    var d := db.jobs[k].batch.value;
    assert WellFormed(db, d);
    assert k in RowsOf(db.jobs, d);
    forall o ensures o in db.dispatches[d].members <==> o in db.jobs && db.jobs[o].batch == Some(d) {
      assert o in RowsOf(db.jobs, d) <==> o in (set m | m in db.dispatches[d].members);
    }
  }

  /** An id newly inserted by a claim was not in the table: the primary key never collides. */
  lemma NewEnvelopesAreNew(wire: Wire, states: seq<System>, events: seq<Event>, n: nat)
    requires Run(wire, states, events) && n < |events| && events[n].Claim?
    ensures var db := Swept(states[n], events[n].passes);
            && events[n].pick.first in db.jobs && events[n].pick.rows != []
            && (db.jobs[events[n].pick.first].batch.None? ==>
                  DispatchIdFor(events[n].pick.rows) !in db.dispatches)
  {
    RunKeeps(wire, states, events, n);
    var s, e := states[n], events[n];
    assert Next(s, wire, e, states[n + 1]);
    SweepKeeps(s, e.q, wire, e.passes);
    if Swept(s, e.passes).jobs[e.pick.first].batch.None? {
      FreshId(Swept(s, e.passes), s.now, e.q, wire, e.pick);
    }
  }

  /** All live leases on a route belong to one envelope and one token. */
  lemma OneEnvelopePerRoute(wire: Wire, states: seq<System>, events: seq<Event>, n: nat, a: JobId, b: JobId)
    requires Run(wire, states, events) && n < |states|
    requires a in states[n].db.jobs && b in states[n].db.jobs && a.route == b.route
    requires LeaseLive(states[n].db.jobs[a], states[n].now) && LeaseLive(states[n].db.jobs[b], states[n].now)
    ensures states[n].db.jobs[a].batch == states[n].db.jobs[b].batch
    ensures states[n].db.jobs[a].token == states[n].db.jobs[b].token
  {
    RunKeeps(wire, states, events, n);
  }

  lemma OwnerIsLatest(s: System, b: Batch)
    requires SysInv(s) && Names(s.db, b) && Owned(s.db, b)
    ensures b.id in s.latest && s.latest[b.id] == b.token
  {
    OwnedIsFrozen(s.db, b);
    assert WellFormed(s.db, b.id);
    assert b.jobs[0] in s.db.dispatches[b.id].members;
    assert b.jobs[0] in RowsOf(s.db.jobs, b.id);
  }

  /** A later claim took the envelope over: every settlement of the old one changes no job. */
  lemma SupersededChangesNothing(wire: Wire, states: seq<System>, events: seq<Event>, n: nat, b: Batch,
                                 state: JobState, messageId: Option<string>, reason: Reason,
                                 delay: Time, count: bool, ambiguous: bool)
    requires Run(wire, states, events) && n < |states|
    requires Names(states[n].db, b)
    requires b.id in states[n].latest && states[n].latest[b.id] != b.token
    ensures Inv(states[n].db)
    ensures var db, now := states[n].db, states[n].now;
            && FinishBatch(db, b, state, messageId, reason, now).0.jobs == db.jobs
            && RetryBatch(db, b, now, delay, reason, count, ambiguous).0.jobs == db.jobs
            && SplitRejected(db, b, now).0.jobs == db.jobs
            && ValidateDispatch(db, b, now).0.jobs == db.jobs
            && !Owned(db, b)
  {
    RunKeeps(wire, states, events, n);
    SupersededIsStray(states[n], b);
    StrayKeepsJobs(states[n].db, b, states[n].now, state, messageId, reason, delay, count, ambiguous);
  }

  lemma SupersededIsStray(s: System, b: Batch)
    requires SysInv(s) && Names(s.db, b) && b.id in s.latest && s.latest[b.id] != b.token
    ensures !Owned(s.db, b) && CancelJobs(s.db.jobs, b.id, Some(b.token)) == s.db.jobs
  {
    if Owned(s.db, b) { OwnerIsLatest(s, b); }
    forall k | k in s.db.jobs ensures CancelJobs(s.db.jobs, b.id, Some(b.token))[k] == s.db.jobs[k] {
      assert JobShape(s.db.jobs[k]);
    }
  }

  lemma StrayKeepsJobs(db: Db, b: Batch, now: Time, state: JobState, messageId: Option<string>, reason: Reason,
                       delay: Time, count: bool, ambiguous: bool)
    requires ForeignKeys(db) && !Owned(db, b) && CancelJobs(db.jobs, b.id, Some(b.token)) == db.jobs
    ensures FinishBatch(db, b, state, messageId, reason, now).0.jobs == db.jobs
    ensures RetryBatch(db, b, now, delay, reason, count, ambiguous).0.jobs == db.jobs
    ensures SplitRejected(db, b, now).0.jobs == db.jobs && ValidateDispatch(db, b, now).0.jobs == db.jobs
  {
    assert Disown(db, b).jobs == db.jobs;
  }

  /** Sent is absorbing: the whole row is settled once and for all. */
  lemma SentIsFinal(wire: Wire, states: seq<System>, events: seq<Event>, i: nat, j: nat, k: JobId)
    requires Run(wire, states, events) && i <= j < |states|
    requires k in states[i].db.jobs && states[i].db.jobs[k].state.Sent?
    ensures k in states[j].db.jobs && states[j].db.jobs[k] == states[i].db.jobs[k]
  {
    RunPreserves(wire, states, events, i, j);
  }

  /** Once an item is seeded, none of its jobs is ever pending or leased again. */
  lemma SeededForever(wire: Wire, states: seq<System>, events: seq<Event>, i: nat, j: nat, k: JobId)
    requires Run(wire, states, events) && i <= j < |states|
    requires k.item in states[i].db.seeded && k in states[j].db.jobs
    ensures !states[j].db.jobs[k].Live()
  {
    RunPreserves(wire, states, events, i, j);
    RunKeeps(wire, states, events, j);
  }

  /** A claim never refuses more envelopes than there are live jobs. */
  lemma ClaimProgress(wire: Wire, states: seq<System>, events: seq<Event>, n: nat)
    requires Run(wire, states, events) && n < |events|
    requires events[n].Claim? || events[n].ClaimNothing?
    ensures |events[n].passes| <= |LiveJobs(states[n].db)|
  {
    RunKeeps(wire, states, events, n);
    assert Next(states[n], wire, events[n], states[n + 1]);
    SweepKeeps(states[n], events[n].q, wire, events[n].passes);
  }

  // ---------------------------------------------------------------- fairness

  ghost predicate FairClaim(e: Event) {
    e.Claim? && e.q.fair
  }

  /** A row of the route that can be claimed now and whose whole envelope is deliverable. */
  ghost predicate Claimable(db: Db, now: Time, q: Query, route: Route, k: JobId) {
    && k.route == route && Candidate(db, k, now, q)
    && match db.jobs[k].batch {
         case None => Deliverable(db, [k], now)
         case Some(d) => d in db.dispatches && Deliverable(db, db.dispatches[d].members, now)
       }
  }

  /** A row keeps its place when its own envelope, the gates and the leases do not change. */
  lemma StaysClaimable(a: Db, b: Db, now: Time, q: Query, route: Route, k: JobId)
    requires Claimable(a, now, q, route, k) && Inv(a)
    requires NoNewLease(a, b) && b == a.(jobs := b.jobs, dispatches := b.dispatches)
    requires a.jobs.Keys == b.jobs.Keys && EnvelopesKept(a.dispatches, b.dispatches)
    requires b.jobs[k] == a.jobs[k]
    requires forall o | o in b.jobs && a.jobs[k].batch.Some? && b.jobs[o].batch == a.jobs[k].batch ::
               b.jobs[o] == a.jobs[o]
    requires forall o | o in a.jobs && a.jobs[k].batch.Some? && a.jobs[o].batch == a.jobs[k].batch ::
               b.jobs[o] == a.jobs[o]
    ensures Claimable(b, now, q, route, k)
  {
    NoNewBusy(a, b, route, now);
    assert !SiblingWaits(b, b.jobs[k], now);
    if a.jobs[k].batch.Some? {
      var d := a.jobs[k].batch.value;
      SavedRowsPoint(a, Pass(k, [], None, []));
      assert SameEnvelope(a.dispatches[d], b.dispatches[d]);
    }
  }

  lemma NoNewBusy(a: Db, b: Db, route: Route, now: Time)
    requires NoNewLease(a, b) && !RouteBusy(a, route, now)
    ensures !RouteBusy(b, route, now)
  {
  }

  /** The refused envelope is not the deliverable one. */
  lemma RefusedElsewhere(db: Db, now: Time, q: Query, p: Pass, route: Route, k: JobId)
    requires Inv(db) && p.first in db.jobs && db.jobs[p.first].batch.Some? && SavedRows(db, p)
    requires !Deliverable(db, p.rows, now) && Claimable(db, now, q, route, k)
    ensures db.jobs[k].batch != db.jobs[p.first].batch
  {
  }

  lemma RetireSparesRow(db: Db, now: Time, q: Query, p: Pass, route: Route, k: JobId)
    requires p.first in db.jobs && Claimable(db, now, q, route, k) && Inv(db)
    requires db.jobs[p.first].batch.Some? ==> db.jobs[k].batch != db.jobs[p.first].batch
    requires db.jobs[p.first].batch.None? ==> forall o | o in Gone(db, p.rows) :: db.jobs[o].batch.None?
    ensures Retire(db, p).jobs[k] == db.jobs[k]
    ensures EnvelopesKept(db.dispatches, Retire(db, p).dispatches)
  {
    if db.jobs[p.first].batch.Some? {
      MarkKeeps(db.dispatches, db.jobs[p.first].batch.value, DSkipped, false);
    } else if db.jobs[k].batch.None? {
      assert k in [k];
      assert k !in Gone(db, p.rows);
    }
  }

  /** Refused passes leave a deliverable envelope where it was. */
  lemma RetireSpares(db: Db, now: Time, q: Query, wire: Wire, p: Pass, route: Route, k: JobId)
    requires Inv(db) && q.size >= 1 && Picked(db, now, q, wire, p) && !Deliverable(db, p.rows, now)
    requires Claimable(db, now, q, route, k)
    ensures Claimable(Retire(db, p), now, q, route, k)
  {
    RetireKeeps(db, now, q, wire, p);
    if db.jobs[p.first].batch.Some? {
      RefusedElsewhere(db, now, q, p, route, k);
    } else {
      GoneAreFree(db, now, q, wire, p);
    }
    RetireElsewhere(db, now, q, p, route, k);
  }

  lemma RetireElsewhere(db: Db, now: Time, q: Query, p: Pass, route: Route, k: JobId)
    requires Inv(db) && p.first in db.jobs && Claimable(db, now, q, route, k)
    requires NoNewLease(db, Retire(db, p))
    requires db.jobs[p.first].batch.Some? ==> db.jobs[k].batch != db.jobs[p.first].batch
    requires db.jobs[p.first].batch.None? ==> forall o | o in Gone(db, p.rows) :: db.jobs[o].batch.None?
    ensures Claimable(Retire(db, p), now, q, route, k)
  {
    RetireSparesRow(db, now, q, p, route, k);
    RetireSparesEnvelope(db, p, k);
    StaysClaimable(db, Retire(db, p), now, q, route, k);
  }

  lemma RetireSparesEnvelope(db: Db, p: Pass, k: JobId)
    requires p.first in db.jobs && k in db.jobs
    requires db.jobs[p.first].batch.Some? ==> db.jobs[k].batch != db.jobs[p.first].batch
    requires db.jobs[p.first].batch.None? ==> forall o | o in Gone(db, p.rows) :: db.jobs[o].batch.None?
    ensures forall o | o in db.jobs && db.jobs[k].batch.Some? && db.jobs[o].batch == db.jobs[k].batch ::
              Retire(db, p).jobs[o] == db.jobs[o]
    ensures forall o | o in db.jobs && db.jobs[k].batch.Some? && Retire(db, p).jobs[o].batch == db.jobs[k].batch ::
              Retire(db, p).jobs[o] == db.jobs[o]
  {
  }

  lemma {:induction false} RefusalsSpare(db: Db, now: Time, q: Query, wire: Wire, passes: seq<Pass>,
                                         route: Route, k: JobId)
    requires Inv(db) && NoneStale(db, now) && q.size >= 1 && AllRefused(db, now, q, wire, passes)
    requires Claimable(db, now, q, route, k)
    ensures Claimable(RetireAll(db, passes), now, q, route, k)
    ensures RetireAll(db, passes).turns == db.turns
  {
    if passes != [] {
      var n := |passes| - 1;
      RefusalsSpare(db, now, q, wire, passes[..n], route, k);
      RefusedPasses(db, now, q, wire, passes[..n]);
      RetireSpares(RetireAll(db, passes[..n]), now, q, wire, passes[n], route, k);
    }
  }

  // ---------------------------------------------------------------- procedures as paths of the run

  /** One step of the run, for a given rendering. */
  ghost function StepBy(wire: Wire): (System, Event, System) -> bool {
    (s: System, e: Event, t: System) => Inv(s.db) && Enabled(s, wire, e) && t == Step(s, wire, e)
  }

  /** So what a sender leads to from a state of a run is a state of a run. */
  lemma StaysReachable(wire: Wire, states: seq<System>, events: seq<Event>, t: System)
    requires Run(wire, states, events) && Leads(StepBy(wire), states[|events|], t)
    ensures exists longer, more :: Run(wire, longer, more) && longer[|more|] == t
  {
    forall i | 0 <= i < |events| ensures StepBy(wire)(states[i], events[i], states[i + 1]) {
      RunKeeps(wire, states, events, i);
      assert Next(states[i], wire, events[i], states[i + 1]);
    }
    var longer, more := TraceLeads(StepBy(wire), states, events, t);
    forall i | 0 <= i < |more| ensures Next(longer[i], wire, more[i], longer[i + 1]) {
      assert StepBy(wire)(longer[i], more[i], longer[i + 1]);
    }
    assert Run(wire, longer, more);
  }

  lemma {:induction false} FollowsKeeps(wire: Wire, s: System, events: seq<Event>, t: System)
    requires SysInv(s) && Follows(StepBy(wire), s, events, t)
    ensures SysInv(t)
    decreases |events|
  {
    if events != [] {
      var u :| StepBy(wire)(s, events[0], u) && Follows(StepBy(wire), u, events[1..], t);
      StepKeeps(s, wire, events[0]);
      FollowsKeeps(wire, u, events[1..], t);
    }
  }

  /** Where a sender leads, the system invariant still holds. */
  lemma PathKeeps(wire: Wire, s: System, t: System)
    requires SysInv(s) && Leads(StepBy(wire), s, t)
    ensures SysInv(t)
  {
    var events :| Follows(StepBy(wire), s, events, t);
    FollowsKeeps(wire, s, events, t);
  }

  /** The history the theorems speak of holds every POST: a submission appends its batch with the reply,
      and nothing else writes it. */
  lemma PostsTold(s: System, wire: Wire, e: Event)
    requires Inv(s.db) && Enabled(s, wire, e)
    ensures var next := Step(s, wire, e);
            if e.Submit? then |next.posts| == |s.posts| + 1 && next.posts[..|s.posts|] == s.posts
                              && next.posts[|s.posts|] == Post(s.flights[e.t].batch, e.reply)
            else next.posts == s.posts
  {
  }
}
