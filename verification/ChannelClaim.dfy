/** Claiming keeps the channel invariants, every refused pass retires a live job, and a
    lease is only granted on an idle route. */
module ChannelClaim {
  import opened Basics
  import opened ChannelTables
  import opened ChannelOps
  import opened ChannelInvariant
  import opened ChannelFill

  function LiveJobs(db: Db): set<JobId> {
    set k | k in db.jobs && db.jobs[k].Live()
  }

  /** The opening UPDATE of a claim leaves no overdue live job. */
  ghost predicate NoneStale(db: Db, now: Time) {
    forall k | k in db.jobs && db.jobs[k].Live() :: db.jobs[k].expires > now
  }

  lemma SavedRowsPoint(db: Db, p: Pass)
    requires Inv(db) && p.first in db.jobs && db.jobs[p.first].batch.Some?
    ensures var d := db.jobs[p.first].batch.value;
            && d in db.dispatches && Frozen(db, d) && p.first in db.dispatches[d].members
            && (forall k | k in db.dispatches[d].members ::
                  k in db.jobs && k.route == p.first.route && db.jobs[k].batch == Some(d))
            && db.dispatches[d].route == p.first.route
  {
    var d := db.jobs[p.first].batch.value;
    assert WellFormed(db, d);
    assert p.first in RowsOf(db.jobs, d);
    forall k | k in db.dispatches[d].members ensures k in db.jobs && db.jobs[k].batch == Some(d) {
      assert k in RowsOf(db.jobs, d);
    }
  }

  /** Skipped observations never belong to an envelope. */
  lemma GoneAreFree(db: Db, now: Time, q: Query, wire: Wire, p: Pass)
    requires Inv(db) && q.size >= 1 && Picked(db, now, q, wire, p) && db.jobs[p.first].batch.None?
    ensures forall o | o in Gone(db, p.rows) :: db.jobs[o].batch.None?
  {
    EnvelopeFill(db, now, q, wire, p);
    forall o | o in Gone(db, p.rows) ensures db.jobs[o].batch.None? {
      assert Unattempted(db, now, p.first.route, o);
    }
  }

  /** Jobs of one envelope share its route. */
  lemma PointersShareRoute(db: Db, a: JobId, b: JobId)
    requires Inv(db) && a in db.jobs && b in db.jobs && db.jobs[b].batch.Some?
    ensures db.jobs[a].batch == db.jobs[b].batch ==> a.route == b.route
  {
    if db.jobs[a].batch == db.jobs[b].batch {
      var d := db.jobs[b].batch.value;
      assert WellFormed(db, d) && a in RowsOf(db.jobs, d) && b in RowsOf(db.jobs, d);
    }
  }

  lemma RetireKeeps(db: Db, now: Time, q: Query, wire: Wire, p: Pass)
    requires Inv(db) && q.size >= 1 && Picked(db, now, q, wire, p)
    ensures Keeps(db, Retire(db, p))
  {
    if db.jobs[p.first].batch.Some? {
      CancelKeeps(db, db.jobs[p.first].batch.value, None);
    } else {
      GoneAreFree(db, now, q, wire, p);
      SkipKeeps(db, Gone(db, p.rows));
    }
  }

  /** A fresh row that cannot be delivered has left its route: seeding and expiry are
      already excluded, so the pass skips at least one job. */
  lemma RefusedRowIsGone(db: Db, now: Time, q: Query, wire: Wire, p: Pass, k: JobId)
    requires Inv(db) && NoneStale(db, now) && q.size >= 1 && Picked(db, now, q, wire, p)
    requires db.jobs[p.first].batch.None? && k in p.rows
    requires !Deliverable(db, [k], now)
    ensures k in Gone(db, p.rows) && db.jobs[k].Live()
  {
    EnvelopeFill(db, now, q, wire, p);
    assert Unattempted(db, now, p.first.route, k);
  }

  lemma LostJob(db: Db, next: Db, now: Time, lost: JobId)
    requires NoneStale(db, now) && lost in LiveJobs(db) && lost !in LiveJobs(next)
    requires db.jobs.Keys == next.jobs.Keys
    requires forall k | k in next.jobs && next.jobs[k].Live() :: next.jobs[k] == db.jobs[k]
    ensures LiveJobs(next) < LiveJobs(db) && NoneStale(next, now)
  {
  }

  lemma SavedProgress(db: Db, now: Time, p: Pass)
    requires NoneStale(db, now) && p.first in db.jobs && db.jobs[p.first].batch.Some?
    requires db.jobs[p.first].Live()
    ensures LiveJobs(Retire(db, p)) < LiveJobs(db) && NoneStale(Retire(db, p), now)
  {
    LostJob(db, Retire(db, p), now, p.first);
  }

  lemma FreshProgress(db: Db, now: Time, p: Pass, k: JobId)
    requires NoneStale(db, now) && p.first in db.jobs && db.jobs[p.first].batch.None?
    requires k in Gone(db, p.rows) && db.jobs[k].Live()
    ensures LiveJobs(Retire(db, p)) < LiveJobs(db) && NoneStale(Retire(db, p), now)
  {
    LostJob(db, Retire(db, p), now, k);
  }

  lemma Undeliverable(db: Db, rows: seq<JobId>, now: Time) returns (k: JobId)
    requires !Deliverable(db, rows, now)
    ensures k in rows && !Deliverable(db, [k], now)
  {
    k :| k in rows && !(k in db.jobs && k.item in db.items && db.jobs[k].Live() && StillWanted(db, k, now));
    assert k in [k];
  }

  /** Termination measure of the claim loop. */
  lemma RetireProgress(db: Db, now: Time, q: Query, wire: Wire, p: Pass)
    requires Inv(db) && NoneStale(db, now) && q.size >= 1
    requires Picked(db, now, q, wire, p) && !Deliverable(db, p.rows, now)
    ensures LiveJobs(Retire(db, p)) < LiveJobs(db)
    ensures NoneStale(Retire(db, p), now)
  {
    if db.jobs[p.first].batch.Some? {
      SavedProgress(db, now, p);
    } else {
      var k := Undeliverable(db, p.rows, now);
      RefusedRowIsGone(db, now, q, wire, p, k);
      FreshProgress(db, now, p, k);
    }
  }

  lemma LeaseRows(jobs: map<JobId, Job>, rows: set<JobId>, d: DispatchId, token: Token, until: Time,
                  e: DispatchId)
    requires rows <= jobs.Keys
    ensures var next := LeaseJobs(jobs, rows, d, token, until);
            RowsOf(next, e) == if e == d then RowsOf(jobs, d) + rows else RowsOf(jobs, e) - rows
  {
    var next := LeaseJobs(jobs, rows, d, token, until);
    forall k | k in jobs
      ensures k in RowsOf(next, e) <==>
              (if e == d then k in RowsOf(jobs, d) + rows else k in RowsOf(jobs, e) - rows)
    {
      assert k in next;
    }
  }

  lemma LeasedRowsKeep(db: Db, now: Time, p: Pass, token: Token)
    requires Inv(db) && p.first in db.jobs && p.rows != [] && Known(db, p.rows)
    requires Deliverable(db, p.rows, now)
    ensures var next := Lease(db, p, token, now);
            && Shapes(next) && Suppressed(next) && ForeignKeys(next)
            && forall k | k in db.jobs :: db.jobs[k].state.Sent? ==> next.jobs[k] == db.jobs[k]
  {
    var next := Lease(db, p, token, now);
    forall k | k in next.jobs
      ensures JobShape(next.jobs[k]) && (k.item in next.seeded ==> !next.jobs[k].Live())
      ensures db.jobs[k].state.Sent? ==> next.jobs[k] == db.jobs[k]
    {
      assert JobShape(db.jobs[k]);
    }
  }

  /** Pointing free or already pointing rows at one envelope keeps the partition. */
  lemma LeasePartition(a: Db, b: Db, d: DispatchId, rows: set<JobId>, token: Token, until: Time)
    requires Partition(a) && d in b.dispatches
    requires b == a.(jobs := LeaseJobs(a.jobs, rows, d, token, until), turns := b.turns,
                     dispatches := a.dispatches[d := b.dispatches[d]])
    requires WellFormed(b, d) && rows == (set k | k in b.dispatches[d].members)
    requires forall k | k in rows :: k in a.jobs && (a.jobs[k].batch.None? || a.jobs[k].batch == Some(d))
    requires RowsOf(a.jobs, d) <= rows
    ensures Partition(b)
  {
    forall e | e in b.dispatches ensures WellFormed(b, e) && (Frozen(b, e) || Split(b, e)) {
      LeaseRows(a.jobs, rows, d, token, until, e);
      if e != d {
        assert WellFormed(a, e);
        assert RowsOf(a.jobs, e) !! rows;
      }
    }
  }

  /** What both kinds of lease come to: rows that are free or the envelope's own now all point at it. */
  ghost predicate LeasedAs(db: Db, p: Pass, d: DispatchId, next: Db)
    requires p.first in db.jobs
  {
    && d in next.dispatches && WellFormed(next, d) && next.dispatches[d].members == p.rows
    && next.dispatches == db.dispatches[d := next.dispatches[d]]
    && (d in db.dispatches ==> SameEnvelope(db.dispatches[d], next.dispatches[d]))
    && (forall k | k in p.rows :: k in db.jobs && (db.jobs[k].batch.None? || db.jobs[k].batch == Some(d)))
    && RowsOf(db.jobs, d) <= (set k | k in p.rows)
  }

  lemma LeasedAsKeeps(db: Db, now: Time, p: Pass, token: Token, d: DispatchId, next: Db)
    requires Inv(db) && p.first in db.jobs && p.rows != [] && Known(db, p.rows) && Deliverable(db, p.rows, now)
    requires next == Lease(db, p, token, now) && d == EnvelopeId(db, p) && LeasedAs(db, p, d, next)
    ensures Inv(next) && Preserves(db, next)
  {
    LeasedRowsKeep(db, now, p, token);
    LeasedAsPreserves(db, p, d, next);
    LeasePartition(db, next, d, (set k | k in p.rows), token, now + LEASE);
  }

  lemma LeasedAsPreserves(db: Db, p: Pass, d: DispatchId, next: Db)
    requires p.first in db.jobs && LeasedAs(db, p, d, next) && next.seeded == db.seeded
    requires forall k | k in db.jobs :: k in next.jobs && (db.jobs[k].state.Sent? ==> next.jobs[k] == db.jobs[k])
    ensures Preserves(db, next)
  {
  }

  lemma SavedLeased(db: Db, p: Pass, token: Token, now: Time, next: Db)
    requires Inv(db) && p.first in db.jobs && db.jobs[p.first].batch.Some? && SavedRows(db, p)
    requires p.rows != [] && Known(db, p.rows) && next == Lease(db, p, token, now)
    ensures LeasedAs(db, p, db.jobs[p.first].batch.value, next)
  {
    SavedRowsPoint(db, p);
    assert WellFormed(db, db.jobs[p.first].batch.value);
  }

  lemma SavedLeaseKeeps(db: Db, now: Time, p: Pass, token: Token)
    requires Inv(db) && p.first in db.jobs && db.jobs[p.first].batch.Some? && SavedRows(db, p)
    requires p.rows != [] && Known(db, p.rows) && Deliverable(db, p.rows, now)
    ensures var next := Lease(db, p, token, now); Inv(next) && Preserves(db, next)
  {
    var next := Lease(db, p, token, now);
    SavedLeased(db, p, token, now, next);
    LeasedAsKeeps(db, now, p, token, EnvelopeId(db, p), next);
  }

  lemma FreshLeased(db: Db, now: Time, p: Pass, token: Token, next: Db)
    requires Inv(db) && p.first in db.jobs && db.jobs[p.first].batch.None?
    requires OneCohort(db, now, p.first, p.rows) && Known(db, p.rows)
    requires forall k | k in p.rows :: Unattempted(db, now, p.first.route, k)
    requires DispatchIdFor(p.rows) !in db.dispatches && next == Lease(db, p, token, now)
    ensures EnvelopeId(db, p) == DispatchIdFor(p.rows) && LeasedAs(db, p, DispatchIdFor(p.rows), next)
  {
    NobodyPoints(db, DispatchIdFor(p.rows));
  }

  lemma NobodyPoints(db: Db, d: DispatchId)
    requires Inv(db) && d !in db.dispatches
    ensures RowsOf(db.jobs, d) == {}
  {
  }

  lemma FreshLeaseKeeps(db: Db, now: Time, p: Pass, token: Token)
    requires Inv(db) && p.first in db.jobs && db.jobs[p.first].batch.None?
    requires OneCohort(db, now, p.first, p.rows) && Known(db, p.rows) && Deliverable(db, p.rows, now)
    requires forall k | k in p.rows :: Unattempted(db, now, p.first.route, k)
    requires DispatchIdFor(p.rows) !in db.dispatches
    ensures var next := Lease(db, p, token, now); Inv(next) && Preserves(db, next)
  {
    var next := Lease(db, p, token, now);
    FreshLeased(db, now, p, token, next);
    LeasedAsKeeps(db, now, p, token, EnvelopeId(db, p), next);
  }

  lemma LeaseKeeps(db: Db, now: Time, q: Query, wire: Wire, p: Pass, token: Token)
    requires Inv(db) && q.size >= 1 && Chosen(db, now, q, wire, p)
    ensures Known(db, p.rows)
    ensures var next := Lease(db, p, token, now);
            Inv(next) && Preserves(db, next) && Names(next, BatchOf(db, p, token))
  {
    if db.jobs[p.first].batch.Some? {
      SavedRowsPoint(db, p);
      SavedLeaseKeeps(db, now, p, token);
    } else {
      EnvelopeFill(db, now, q, wire, p);
      FreshId(db, now, q, wire, p);
      FreshLeaseKeeps(db, now, p, token);
    }
  }

  /** The new lease is the only live one on its route, and no other route changed. */
  lemma LeaseIsAlone(db: Db, now: Time, q: Query, wire: Wire, p: Pass, token: Token)
    requires Inv(db) && OneLease(db, now) && q.size >= 1 && Chosen(db, now, q, wire, p)
    ensures Known(db, p.rows) && OneLease(Lease(db, p, token, now), now)
  {
    LeaseKeeps(db, now, q, wire, p, token);
    var next := Lease(db, p, token, now);
    forall k | k in p.rows ensures k.route == p.first.route {
      if db.jobs[p.first].batch.Some? {
        SavedRowsPoint(db, p);
      } else {
        EnvelopeFill(db, now, q, wire, p);
        assert Unattempted(db, now, p.first.route, k);
      }
    }
    forall a, b | a in next.jobs && b in next.jobs && a.route == b.route
                  && LeaseLive(next.jobs[a], now) && LeaseLive(next.jobs[b], now)
      ensures next.jobs[a].batch == next.jobs[b].batch && next.jobs[a].token == next.jobs[b].token
    {
      if a.route == p.first.route {
        assert !RouteBusy(db, p.first.route, now);
        assert a in p.rows && b in p.rows;
      } else {
        assert next.jobs[a] == db.jobs[a] && next.jobs[b] == db.jobs[b];
      }
    }
  }
}
