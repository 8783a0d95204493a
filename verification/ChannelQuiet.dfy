/** When an envelope's possible acceptance is safe, and which transactions leave it safe. */
module ChannelQuiet {
  import opened Basics
  import opened ChannelTables
  import opened Ranking
  import opened ChannelOps
  import opened ChannelInvariant
  import opened ChannelFill
  import opened ChannelClaim
  import opened ChannelIntake

  /** The envelope is still whole, and either doubted or not yet given back by this token:
      every member is settled or leased under the token. */
  ghost predicate Safe(db: Db, d: DispatchId, token: Token) {
    && d in db.dispatches
    && Frozen(db, d)
    && (db.dispatches[d].uncertain || Guarded(db, d, token))
  }

  ghost predicate Guarded(db: Db, d: DispatchId, token: Token) {
    forall k | k in db.jobs && db.jobs[k].batch == Some(d) ::
      !db.jobs[k].state.Pending? && (db.jobs[k].state.Leased? ==> db.jobs[k].token == Some(token))
  }

  /** Outside one envelope, pointers stay and no settled row returns to pending. */
  ghost predicate QuietOff(a: Db, b: Db, except: Option<DispatchId>) {
    && Keeps(a, b)
    && forall k | k in a.jobs && a.jobs[k].batch.Some? && a.jobs[k].batch != except ::
         b.jobs[k].batch == a.jobs[k].batch && (b.jobs[k].state.Pending? ==> a.jobs[k].state.Pending?)
  }

  lemma StillFrozen(a: Db, b: Db, d: DispatchId, except: Option<DispatchId>)
    requires Inv(a) && QuietOff(a, b, except) && d in a.dispatches && Frozen(a, d) && Some(d) != except
    ensures d in b.dispatches && Frozen(b, d) && RowsOf(b.jobs, d) == RowsOf(a.jobs, d)
  {
    assert WellFormed(a, d);
    var k := a.dispatches[d].members[0];
    assert k in a.dispatches[d].members;
    assert k in RowsOf(a.jobs, d);
    assert k in RowsOf(b.jobs, d);
  }

  lemma SafeWhileQuiet(a: Db, b: Db, d: DispatchId, token: Token, except: Option<DispatchId>)
    requires Inv(a) && QuietOff(a, b, except) && Safe(a, d, token) && Some(d) != except
    ensures Safe(b, d, token)
  {
    StillFrozen(a, b, d, except);
    if !b.dispatches[d].uncertain {
      forall k | k in b.jobs && b.jobs[k].batch == Some(d)
        ensures !b.jobs[k].state.Pending? && (b.jobs[k].state.Leased? ==> b.jobs[k].token == Some(token))
      {
        assert k in RowsOf(b.jobs, d);
        assert k in a.jobs && a.jobs[k].batch == Some(d);
      }
    }
  }

  lemma QuietTrans(a: Db, b: Db, c: Db)
    requires QuietOff(a, b, None) && QuietOff(b, c, None)
    ensures QuietOff(a, c, None)
  {
  }

  // ---------------------------------------------------------------- quiet transactions

  lemma CancelQuiet(db: Db, d: DispatchId, token: Option<Token>)
    requires Inv(db)
    ensures QuietOff(db, Cancel(db, d, token), None)
  {
    CancelKeeps(db, d, token);
  }

  lemma DisownQuiet(db: Db, b: Batch)
    requires Inv(db)
    ensures QuietOff(db, Disown(db, b), None)
  {
    CancelQuiet(db, b.id, Some(b.token));
  }

  lemma ExpireQuiet(db: Db, now: Time)
    requires Inv(db)
    ensures QuietOff(db, Expire(db, now), None)
  {
    ExpireKeeps(db, now);
  }

  lemma DeferQuiet(db: Db, gate: Gate, until: Time)
    requires Inv(db)
    ensures QuietOff(db, Defer(db, gate, until), None)
  {
    DeferKeeps(db, gate, until);
  }

  lemma ValidateQuiet(db: Db, b: Batch, now: Time)
    requires Inv(db)
    ensures QuietOff(db, ValidateDispatch(db, b, now).0, None)
  {
    DisownQuiet(db, b);
    CancelQuiet(db, b.id, Some(b.token));
  }

  lemma FinishQuiet(db: Db, b: Batch, state: JobState, messageId: Option<string>, reason: Reason, now: Time)
    requires Inv(db) && (state.Sent? || state.Failed? || state.Skipped?)
    ensures QuietOff(db, FinishBatch(db, b, state, messageId, reason, now).0, None)
  {
    if Owned(db, b) {
      FinishKeeps(db, b, state, messageId, reason, now);
      var next := FinishBatch(db, b, state, messageId, reason, now).0;
      forall k | k in db.jobs
        ensures next.jobs[k].batch == db.jobs[k].batch
        ensures next.jobs[k].state.Pending? ==> db.jobs[k].state.Pending?
      {
        OwnedRow(db, b, k);
      }
    } else {
      DisownQuiet(db, b);
    }
  }

  lemma RetryQuiet(db: Db, b: Batch, now: Time, delay: Time, reason: Reason, count: bool, ambiguous: bool)
    requires Inv(db)
    ensures QuietOff(db, RetryBatch(db, b, now, delay, reason, count, ambiguous).0, Some(b.id))
  {
    if Owned(db, b) {
      RetryKeeps(db, b, now, delay, reason, count, ambiguous);
    } else {
      DisownQuiet(db, b);
    }
  }

  lemma SplitQuiet(db: Db, b: Batch, now: Time)
    requires Inv(db) && Names(db, b)
    ensures QuietOff(db, SplitRejected(db, b, now).0, Some(b.id))
    ensures !Owned(db, b) ==> QuietOff(db, SplitRejected(db, b, now).0, None)
  {
    if Owned(db, b) {
      SplitKeeps(db, b, now);
    } else {
      DisownQuiet(db, b);
    }
  }

  lemma AddJobQuiet(db: Db, item: Item, route: Route, firstSeen: Time, now: Time)
    requires Inv(db) && item.id in db.items && item.id !in db.seeded
    ensures QuietOff(db, db.(jobs := AddJob(db.jobs, item, route, firstSeen, now)), None)
  {
    AddJobKeeps(db, item, route, firstSeen, now);
    BundledStay(db.jobs, item, route, firstSeen, now);
  }

  lemma BundledStay(jobs: map<JobId, Job>, item: Item, route: Route, firstSeen: Time, now: Time)
    ensures var next := AddJob(jobs, item, route, firstSeen, now);
            forall k | k in jobs && jobs[k].batch.Some? :: k in next && next[k] == jobs[k]
  {
  }

  lemma {:induction false} AddJobsQuiet(db: Db, item: Item, routes: seq<Route>, firstSeen: Time, now: Time)
    requires Inv(db) && item.id in db.items && item.id !in db.seeded
    ensures QuietOff(db, db.(jobs := AddJobs(db.jobs, item, routes, firstSeen, now)), None)
  {
    if routes == [] {
      assert db == db.(jobs := AddJobs(db.jobs, item, routes, firstSeen, now));
    } else {
      var n := |routes| - 1;
      AddJobsQuiet(db, item, routes[..n], firstSeen, now);
      var mid := db.(jobs := AddJobs(db.jobs, item, routes[..n], firstSeen, now));
      AddJobQuiet(mid, item, routes[n], firstSeen, now);
      QuietTrans(db, mid, mid.(jobs := AddJob(mid.jobs, item, routes[n], firstSeen, now)));
    }
  }

  lemma MarkedQuiet(db: Db, item: Item, now: Time, seedOnly: bool)
    requires Inv(db)
    ensures var seen := Observe(db, item, now);
            QuietOff(db, if seedOnly then Seed(seen, item.id) else seen, None)
  {
    var seen := Observe(db, item, now);
    ObserveKeeps(db, item, now);
    assert QuietOff(db, seen, None);
    if seedOnly {
      SeedKeeps(seen, item.id);
      assert QuietOff(seen, Seed(seen, item.id), None);
      QuietTrans(db, seen, Seed(seen, item.id));
    }
  }

  lemma RecordItemQuiet(db: Db, item: Item, now: Time, seedOnly: bool)
    requires Inv(db)
    ensures QuietOff(db, RecordItem(db, item, now, seedOnly), None)
  {
    var seen := Observe(db, item, now);
    var marked := if seedOnly then Seed(seen, item.id) else seen;
    MarkedQuiet(db, item, now, seedOnly);
    if item.id !in marked.seeded {
      AddJobsQuiet(marked, item, RouteKeys(item), marked.items[item.id].firstSeen, now);
      QuietTrans(db, marked, RecordItem(db, item, now, seedOnly));
    }
  }

  lemma {:induction false} RecordQuiet(db: Db, items: seq<Item>, now: Time, seedOnly: bool)
    requires Inv(db)
    ensures QuietOff(db, RecordAll(db, items, now, seedOnly), None)
  {
    if items != [] {
      var n := |items| - 1;
      var mid := RecordAll(db, items[..n], now, seedOnly);
      RecordQuiet(db, items[..n], now, seedOnly);
      RecordItemQuiet(mid, items[n], now, seedOnly);
      QuietTrans(db, mid, RecordAll(db, items, now, seedOnly));
    }
  }

  lemma RetireQuiet(db: Db, now: Time, q: Query, wire: Wire, p: Pass)
    requires Inv(db) && q.size >= 1 && Picked(db, now, q, wire, p)
    ensures QuietOff(db, Retire(db, p), None)
  {
    RetireKeeps(db, now, q, wire, p);
    RetirePointers(db, p);
  }

  lemma RetirePointers(db: Db, p: Pass)
    requires p.first in db.jobs
    ensures forall k | k in db.jobs ::
              var next := Retire(db, p);
              k in next.jobs && next.jobs[k].batch == db.jobs[k].batch
              && (next.jobs[k].state.Pending? ==> db.jobs[k].state.Pending?)
  {
  }

  /** Refused passes keep the store good, and there are at most as many as live jobs. */
  lemma {:induction false} RefusedPasses(db: Db, now: Time, q: Query, wire: Wire, passes: seq<Pass>)
    requires Inv(db) && NoneStale(db, now) && q.size >= 1 && AllRefused(db, now, q, wire, passes)
    ensures var after := RetireAll(db, passes);
            && QuietOff(db, after, None)
            && NoneStale(after, now)
            && LiveJobs(after) <= LiveJobs(db)
            && |passes| + |LiveJobs(after)| <= |LiveJobs(db)|
  {
    if passes != [] {
      var n := |passes| - 1;
      var before := RetireAll(db, passes[..n]);
      RefusedPasses(db, now, q, wire, passes[..n]);
      RetireQuiet(before, now, q, wire, passes[n]);
      RetireProgress(before, now, q, wire, passes[n]);
      QuietTrans(db, before, Retire(before, passes[n]));
      ProperSubsetSize(LiveJobs(Retire(before, passes[n])), LiveJobs(before));
    }
  }

  // ---------------------------------------------------------------- leases and give-backs

  /** A takeover doubts the envelope, so an earlier possible acceptance stays safe. */
  lemma LeaseSafe(db: Db, now: Time, q: Query, wire: Wire, p: Pass, token: Token, d: DispatchId, t: Token)
    requires Inv(db) && q.size >= 1 && Chosen(db, now, q, wire, p) && Known(db, p.rows)
    requires Safe(db, d, t)
    ensures Safe(Lease(db, p, token, now), d, t)
  {
    LeaseKeeps(db, now, q, wire, p, token);
    var next := Lease(db, p, token, now);
    assert WellFormed(db, d);
    var m := db.dispatches[d].members[0];
    assert m in db.dispatches[d].members && m in RowsOf(db.jobs, d);
    if db.jobs[p.first].batch == Some(d) {
      SavedRowsPoint(db, p);
      assert m in p.rows && m in RowsOf(next.jobs, d);
      if !db.dispatches[d].uncertain {
        assert db.jobs[p.first].state.Leased?;
        assert p.first in p.rows;
        assert AnyLeased(db, p.rows);
      }
    } else {
      LeaseElsewhere(db, now, q, wire, p, token, d);
      assert m in RowsOf(next.jobs, d);
      assert EnvelopeId(db, p) != d;
    }
  }

  /** The leased rows point at no other saved envelope. */
  lemma LeasedRowsPoint(db: Db, now: Time, q: Query, wire: Wire, p: Pass, d: DispatchId)
    requires Inv(db) && q.size >= 1 && Chosen(db, now, q, wire, p) && Known(db, p.rows)
    requires d in db.dispatches && db.jobs[p.first].batch != Some(d)
    ensures EnvelopeId(db, p) != d
    ensures forall k | k in p.rows :: k in db.jobs && db.jobs[k].batch != Some(d)
  {
    if db.jobs[p.first].batch.Some? {
      SavedRowsPoint(db, p);
    } else {
      FreshId(db, now, q, wire, p);
      EnvelopeFill(db, now, q, wire, p);
      forall k | k in p.rows ensures db.jobs[k].batch.None? {
        assert Unattempted(db, now, p.first.route, k);
      }
    }
  }

  /** Rows of another envelope are not touched by a lease. */
  lemma LeaseElsewhere(db: Db, now: Time, q: Query, wire: Wire, p: Pass, token: Token, d: DispatchId)
    requires Inv(db) && q.size >= 1 && Chosen(db, now, q, wire, p) && Known(db, p.rows)
    requires d in db.dispatches && db.jobs[p.first].batch != Some(d)
    ensures EnvelopeId(db, p) != d
    ensures forall k | k in db.jobs && db.jobs[k].batch == Some(d) ::
              Lease(db, p, token, now).jobs[k] == db.jobs[k]
    ensures forall k | k in db.jobs && Lease(db, p, token, now).jobs[k].batch == Some(d) ::
              db.jobs[k].batch == Some(d)
  {
    LeasedRowsPoint(db, now, q, wire, p, d);
    LeaseOthers(db.jobs, (set k | k in p.rows), EnvelopeId(db, p), token, now + LEASE, d);
  }

  lemma LeaseOthers(jobs: map<JobId, Job>, rows: set<JobId>, e: DispatchId, token: Token, until: Time, d: DispatchId)
    requires d != e && forall k | k in rows :: k in jobs && jobs[k].batch != Some(d)
    ensures var next := LeaseJobs(jobs, rows, e, token, until);
            && (forall k | k in jobs && jobs[k].batch == Some(d) :: next[k] == jobs[k])
            && (forall k | k in jobs && next[k].batch == Some(d) :: jobs[k].batch == Some(d))
  {
  }

  lemma LeaseIsSafe(db: Db, now: Time, q: Query, wire: Wire, p: Pass, token: Token)
    requires Inv(db) && q.size >= 1 && Chosen(db, now, q, wire, p) && Known(db, p.rows)
    ensures Safe(Lease(db, p, token, now), EnvelopeId(db, p), token)
  {
    LeaseKeeps(db, now, q, wire, p, token);
    var next := Lease(db, p, token, now);
    var d := EnvelopeId(db, p);
    assert WellFormed(next, d);
    assert p.rows[0] in RowsOf(next.jobs, d);
    assert Frozen(next, d);
    forall k | k in next.jobs && next.jobs[k].batch == Some(d)
      ensures next.jobs[k].state.Leased? && next.jobs[k].token == Some(token)
    {
      assert k in RowsOf(next.jobs, d);
      assert k in p.rows;
    }
  }

  /** Giving an owned envelope back to pending is safe for everyone else's possible
      acceptance, because they see it doubted already, or this token is theirs. */
  lemma OwnedByAnother(db: Db, b: Batch, d: DispatchId, t: Token)
    requires Inv(db) && Names(db, b) && Owned(db, b) && Safe(db, d, t) && b.id == d && b.token != t
    ensures db.dispatches[d].uncertain
  {
    OwnedIsFrozen(db, b);
    assert WellFormed(db, d);
    var m := db.dispatches[d].members[0];
    assert m in db.dispatches[d].members && m in RowsOf(db.jobs, d);
  }

  lemma RetrySafe(db: Db, b: Batch, now: Time, delay: Time, reason: Reason, count: bool, ambiguous: bool,
                  d: DispatchId, t: Token)
    requires Inv(db) && Names(db, b) && Safe(db, d, t)
    requires b.id == d && b.token == t ==> ambiguous || !Owned(db, b)
    ensures Safe(RetryBatch(db, b, now, delay, reason, count, ambiguous).0, d, t)
  {
    var next := RetryBatch(db, b, now, delay, reason, count, ambiguous).0;
    RetryQuiet(db, b, now, delay, reason, count, ambiguous);
    if !Owned(db, b) {
      DisownQuiet(db, b);
      SafeWhileQuiet(db, next, d, t, None);
    } else if b.id != d {
      SafeWhileQuiet(db, next, d, t, Some(b.id));
    } else {
      if b.token != t { OwnedByAnother(db, b, d, t); }
      assert WellFormed(db, d);
      assert RowsOf(next.jobs, d) == RowsOf(db.jobs, d);
    }
  }

  lemma SplitSafe(db: Db, b: Batch, now: Time, d: DispatchId, t: Token)
    requires Inv(db) && Names(db, b) && Safe(db, d, t)
    requires b.id == d && b.token == t ==> !Owned(db, b)
    ensures Safe(SplitRejected(db, b, now).0, d, t)
  {
    var next := SplitRejected(db, b, now).0;
    SplitQuiet(db, b, now);
    if !Owned(db, b) {
      SafeWhileQuiet(db, next, d, t, None);
    } else if b.id != d {
      SafeWhileQuiet(db, next, d, t, Some(b.id));
    } else {
      OwnedByAnother(db, b, d, t);
      if AllWanted(db, d, now) {
        assert RowsOf(next.jobs, d) == RowsOf(db.jobs, d);
      } else {
        CancelQuiet(db, d, Some(b.token));
        SafeWhileQuiet(db, next, d, t, None);
      }
    }
  }
}
