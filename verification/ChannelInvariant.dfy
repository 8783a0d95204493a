/** What every channel transaction keeps: the frozen-envelope partition, seed suppression and
    the shape of leases. Each statement is preserved on its own terms by small frame lemmas. */
module ChannelInvariant {
  import opened Basics
  import opened ChannelTables
  import opened Ranking
  import opened ChannelOps

  /** Jobs pointing at the envelope are exactly its saved members. */
  ghost predicate Frozen(db: Db, d: DispatchId)
    requires d in db.dispatches
  {
    RowsOf(db.jobs, d) == (set k | k in db.dispatches[d].members)
  }

  /** A split envelope: nobody points at it and its route has learned a smaller limit. */
  ghost predicate Split(db: Db, d: DispatchId)
    requires d in db.dispatches
  {
    && RowsOf(db.jobs, d) == {}
    && |db.dispatches[d].members| > 1
    && db.dispatches[d].route in db.limits
    && db.limits[db.dispatches[d].route] < |db.dispatches[d].members|
  }

  ghost predicate WellFormed(db: Db, d: DispatchId)
    requires d in db.dispatches
  {
    var e := db.dispatches[d];
    && e.members != []
    && Distinct(e.members)
    && d == DispatchIdFor(e.members)
    && (forall k | k in e.members :: k in db.jobs && k.route == e.route)
    && e.body.nonce == d
    && |e.body.cards| == |e.members|
  }

  /** Every saved envelope is frozen or split, and every pointer leads to a saved envelope. */
  ghost predicate Partition(db: Db) {
    && (forall d | d in db.dispatches :: WellFormed(db, d) && (Frozen(db, d) || Split(db, d)))
    && (forall k | k in db.jobs && db.jobs[k].batch.Some? :: db.jobs[k].batch.value in db.dispatches)
    && (forall r | r in db.limits :: db.limits[r] >= 1)
  }

  ghost predicate JobShape(j: Job) {
    && (j.state.Leased? ==> j.batch.Some? && j.token.Some? && j.leaseUntil.Some?)
    && (j.state.Pending? ==> j.token.None?)
    && (j.batch.None? ==> j.attempts == 0 && j.token.None?)
    && (j.batch.None? ==> j.state.Pending? || j.state.Skipped? || j.state.Expired?)
  }

  ghost predicate Shapes(db: Db) {
    forall k | k in db.jobs :: JobShape(db.jobs[k])
  }

  /** No job of a seeded item is waiting or leased. */
  ghost predicate Suppressed(db: Db) {
    forall k | k in db.jobs && k.item in db.seeded :: !db.jobs[k].Live()
  }

  ghost predicate Inv(db: Db) {
    ForeignKeys(db) && Partition(db) && Shapes(db) && Suppressed(db)
  }

  /** Live leases on one route belong to one envelope and one token. */
  ghost predicate OneLease(db: Db, now: Time) {
    forall a, b | a in db.jobs && b in db.jobs && a.route == b.route
                  && LeaseLive(db.jobs[a], now) && LeaseLive(db.jobs[b], now) ::
      db.jobs[a].batch == db.jobs[b].batch && db.jobs[a].token == db.jobs[b].token
  }

  lemma EmptyInv()
    ensures Inv(EMPTY)
  {
  }

  /** Settled history: envelopes keep route, members and body, and sent rows never change. */
  ghost predicate Preserves(a: Db, b: Db) {
    && (forall d | d in a.dispatches ::
          d in b.dispatches && b.dispatches[d].route == a.dispatches[d].route
          && b.dispatches[d].members == a.dispatches[d].members
          && b.dispatches[d].body == a.dispatches[d].body
          && (a.dispatches[d].uncertain ==> b.dispatches[d].uncertain))
    && (forall k | k in a.jobs :: k in b.jobs && (a.jobs[k].state.Sent? ==> b.jobs[k] == a.jobs[k]))
    && a.seeded <= b.seeded
  }

  /** No row became leased or changed its lease. */
  ghost predicate NoNewLease(a: Db, b: Db) {
    forall k | k in b.jobs && b.jobs[k].state.Leased? :: k in a.jobs && b.jobs[k] == a.jobs[k]
  }

  /** What every transaction but a successful claim does to a good store. */
  ghost predicate Keeps(a: Db, b: Db) {
    Inv(b) && Preserves(a, b) && NoNewLease(a, b)
  }

  lemma LeasesAge(a: Db, b: Db, now: Time, later: Time)
    requires OneLease(a, now) && NoNewLease(a, b) && now <= later
    ensures OneLease(b, later)
  {
  }

  // ---------------------------------------------------------------- frames

  ghost predicate SameEnvelope(x: Dispatch, y: Dispatch) {
    x.route == y.route && x.members == y.members && x.body == y.body && (x.uncertain ==> y.uncertain)
  }

  /** A row change that keeps the pointer, never revives a row and never touches a sent one. */
  ghost predicate Moved(x: Job, y: Job) {
    && y.batch == x.batch
    && JobShape(y)
    && (y.Live() ==> x.Live())
    && (y.state.Leased? ==> y == x)
    && (x.state.Sent? ==> y == x)
  }

  ghost predicate EnvelopesKept(a: map<DispatchId, Dispatch>, b: map<DispatchId, Dispatch>) {
    a.Keys == b.Keys && forall d | d in a :: SameEnvelope(a[d], b[d])
  }

  ghost predicate Moves(a: Db, b: Db) {
    && a.items == b.items && a.seeded == b.seeded && a.limits == b.limits
    && EnvelopesKept(a.dispatches, b.dispatches)
    && a.jobs.Keys == b.jobs.Keys
    && (forall k | k in a.jobs :: Moved(a.jobs[k], b.jobs[k]))
  }

  lemma MovesKeepPartition(a: Db, b: Db)
    requires Partition(a) && Moves(a, b)
    ensures Partition(b)
  {
    forall d | d in b.dispatches ensures WellFormed(b, d) && (Frozen(b, d) || Split(b, d)) {
      assert d in a.dispatches && WellFormed(a, d) && SameEnvelope(a.dispatches[d], b.dispatches[d]);
      SameRows(a, b, d);
    }
    forall k | k in b.jobs && b.jobs[k].batch.Some? ensures b.jobs[k].batch.value in b.dispatches {
      assert Moved(a.jobs[k], b.jobs[k]);
    }
  }

  lemma SameRows(a: Db, b: Db, d: DispatchId)
    requires Moves(a, b)
    ensures RowsOf(a.jobs, d) == RowsOf(b.jobs, d)
  {
    forall k | k in a.jobs ensures k in RowsOf(a.jobs, d) <==> k in RowsOf(b.jobs, d) {
      assert Moved(a.jobs[k], b.jobs[k]);
    }
  }

  lemma MovesKeep(a: Db, b: Db)
    requires Inv(a) && Moves(a, b)
    ensures Keeps(a, b)
  {
    MovesKeepPartition(a, b);
    forall k | k in b.jobs ensures JobShape(b.jobs[k]) && (k.item in b.seeded ==> !b.jobs[k].Live()) {
      assert Moved(a.jobs[k], b.jobs[k]);
    }
  }

  lemma MarkKeeps(ds: map<DispatchId, Dispatch>, d: DispatchId, state: DispatchState, doubt: bool)
    ensures EnvelopesKept(ds, Mark(ds, d, state))
    ensures EnvelopesKept(ds, Doubt(Mark(ds, d, state), d, doubt))
  {
  }

  // ---------------------------------------------------------------- settlement steps

  lemma CancelKeeps(db: Db, d: DispatchId, token: Option<Token>)
    requires Inv(db)
    ensures Keeps(db, Cancel(db, d, token))
  {
    var next := Cancel(db, d, token);
    MarkKeeps(db.dispatches, d, DSkipped, false);
    forall k | k in db.jobs ensures Moved(db.jobs[k], next.jobs[k]) {
      assert JobShape(db.jobs[k]);
    }
    MovesKeep(db, next);
  }

  lemma ExpireKeeps(db: Db, now: Time)
    requires Inv(db)
    ensures Keeps(db, Expire(db, now))
  {
    var next := Expire(db, now);
    forall k | k in db.jobs ensures Moved(db.jobs[k], next.jobs[k]) {
      assert JobShape(db.jobs[k]);
    }
    MovesKeep(db, next);
  }

  lemma DeferKeeps(db: Db, gate: Gate, until: Time)
    requires Inv(db)
    ensures Keeps(db, Defer(db, gate, until))
  {
    MovesKeep(db, Defer(db, gate, until));
  }

  lemma SkipKeeps(db: Db, gone: set<JobId>)
    requires Inv(db)
    requires forall k | k in gone && k in db.jobs :: db.jobs[k].batch.None?
    ensures var next := db.(jobs := SkipJobs(db.jobs, gone)); Keeps(db, next)
  {
    var next := db.(jobs := SkipJobs(db.jobs, gone));
    forall k | k in db.jobs ensures Moved(db.jobs[k], next.jobs[k]) {
      assert JobShape(db.jobs[k]);
    }
    MovesKeep(db, next);
  }

  lemma DisownKeeps(db: Db, b: Batch)
    requires Inv(db)
    ensures Keeps(db, Disown(db, b))
  {
    CancelKeeps(db, b.id, Some(b.token));
  }

  /** An owned envelope's rows are all leased, so settling them keeps every row's shape. */
  lemma OwnedRow(db: Db, b: Batch, k: JobId)
    requires Inv(db) && Owned(db, b) && k in db.jobs
    ensures Holds(db.jobs[k], b.id, b.token) <==> db.jobs[k].batch == Some(b.id)
    ensures Holds(db.jobs[k], b.id, b.token) ==> db.jobs[k].state.Leased?
    ensures JobShape(db.jobs[k])
  {
  }

  /** A settled row: whoever held it leaves it terminal, or pending without a token. */
  lemma SettledRowMoves(db: Db, b: Batch, k: JobId, next: Job)
    requires Inv(db) && Owned(db, b) && k in db.jobs
    requires if Holds(db.jobs[k], b.id, b.token)
             then next.batch == db.jobs[k].batch && !next.state.Leased? && next.token.None?
             else next == db.jobs[k]
    ensures Moved(db.jobs[k], next)
  {
    OwnedRow(db, b, k);
  }

  lemma FinishedMoves(db: Db, b: Batch, state: JobState, messageId: Option<string>, reason: Reason, now: Time)
    requires Inv(db) && Owned(db, b) && (state.Sent? || state.Failed? || state.Skipped?)
    ensures var jobs := FinishJobs(db.jobs, b.id, b.token, state, messageId, reason, now);
            forall k | k in db.jobs :: Moved(db.jobs[k], jobs[k])
  {
    var jobs := FinishJobs(db.jobs, b.id, b.token, state, messageId, reason, now);
    forall k | k in db.jobs ensures Moved(db.jobs[k], jobs[k]) { SettledRowMoves(db, b, k, jobs[k]); }
  }

  lemma FinishKeeps(db: Db, b: Batch, state: JobState, messageId: Option<string>, reason: Reason, now: Time)
    requires Inv(db) && (state.Sent? || state.Failed? || state.Skipped?)
    ensures var next := FinishBatch(db, b, state, messageId, reason, now).0;
            Keeps(db, next)
  {
    if Owned(db, b) {
      FinishedMoves(db, b, state, messageId, reason, now);
      MarkKeeps(db.dispatches, b.id, TerminalMark(state), false);
      MovesKeep(db, FinishBatch(db, b, state, messageId, reason, now).0);
    } else {
      DisownKeeps(db, b);
    }
  }

  lemma RetriedMoves(db: Db, b: Batch, at: Time, reason: Reason, count: bool, jobs: map<JobId, Job>)
    requires Inv(db) && Owned(db, b) && jobs == RetryJobs(db.jobs, b.id, b.token, at, reason, count)
    ensures jobs.Keys == db.jobs.Keys && forall k | k in db.jobs :: Moved(db.jobs[k], jobs[k])
  {
    forall k | k in db.jobs ensures Moved(db.jobs[k], jobs[k]) { SettledRowMoves(db, b, k, jobs[k]); }
  }

  lemma RowsMove(db: Db, jobs: map<JobId, Job>, ds: map<DispatchId, Dispatch>)
    requires EnvelopesKept(db.dispatches, ds)
    requires jobs.Keys == db.jobs.Keys && forall k | k in db.jobs :: Moved(db.jobs[k], jobs[k])
    ensures Moves(db, db.(jobs := jobs, dispatches := ds))
  {
  }

  lemma RetryIs(db: Db, b: Batch, now: Time, delay: Time, reason: Reason, count: bool, ambiguous: bool)
    requires Owned(db, b)
    ensures RetryBatch(db, b, now, delay, reason, count, ambiguous).0
            == db.(jobs := RetryJobs(db.jobs, b.id, b.token, now + Max(0.01, delay), reason, count),
                   dispatches := Doubt(Mark(db.dispatches, b.id, DPending), b.id, ambiguous))
  {
  }

  lemma RetriedKeeps(db: Db, b: Batch, at: Time, reason: Reason, count: bool, ambiguous: bool, next: Db)
    requires Inv(db) && Owned(db, b)
    requires next == db.(jobs := RetryJobs(db.jobs, b.id, b.token, at, reason, count),
                         dispatches := Doubt(Mark(db.dispatches, b.id, DPending), b.id, ambiguous))
    ensures Keeps(db, next)
  {
    RetriedMoves(db, b, at, reason, count, next.jobs);
    MarkKeeps(db.dispatches, b.id, DPending, ambiguous);
    RowsMove(db, next.jobs, next.dispatches);
    MovesKeep(db, next);
  }

  lemma RetryOwnedKeeps(db: Db, b: Batch, now: Time, delay: Time, reason: Reason, count: bool, ambiguous: bool)
    requires Inv(db) && Owned(db, b)
    ensures Keeps(db, RetryBatch(db, b, now, delay, reason, count, ambiguous).0)
  {
    RetryIs(db, b, now, delay, reason, count, ambiguous);
    RetriedKeeps(db, b, now + Max(0.01, delay), reason, count, ambiguous,
                 RetryBatch(db, b, now, delay, reason, count, ambiguous).0);
  }

  lemma RetryStrayKeeps(db: Db, b: Batch, now: Time, delay: Time, reason: Reason, count: bool, ambiguous: bool)
    requires Inv(db) && !Owned(db, b)
    ensures Keeps(db, RetryBatch(db, b, now, delay, reason, count, ambiguous).0)
  {
    DisownKeeps(db, b);
  }

  lemma RetryKeeps(db: Db, b: Batch, now: Time, delay: Time, reason: Reason, count: bool, ambiguous: bool)
    requires Inv(db)
    ensures var next := RetryBatch(db, b, now, delay, reason, count, ambiguous).0;
            Keeps(db, next)
  {
    if Owned(db, b) {
      RetryOwnedKeeps(db, b, now, delay, reason, count, ambiguous);
    } else {
      RetryStrayKeeps(db, b, now, delay, reason, count, ambiguous);
    }
  }

  lemma ValidateKeeps(db: Db, b: Batch, now: Time)
    requires Inv(db)
    ensures var next := ValidateDispatch(db, b, now).0; Keeps(db, next)
  {
    DisownKeeps(db, b);
    CancelKeeps(db, b.id, Some(b.token));
  }

  lemma HoldKeeps(db: Db, b: Batch)
    requires Inv(db) && Owned(db, b)
    ensures var next := db.(jobs := HoldJobs(db.jobs, b.id, b.token),
                            dispatches := Mark(db.dispatches, b.id, DPending));
            Keeps(db, next)
  {
    var next := db.(jobs := HoldJobs(db.jobs, b.id, b.token),
                    dispatches := Mark(db.dispatches, b.id, DPending));
    MarkKeeps(db.dispatches, b.id, DPending, false);
    forall k | k in db.jobs ensures Moved(db.jobs[k], next.jobs[k]) { OwnedRow(db, b, k); }
    MovesKeep(db, next);
  }

  lemma FailKeeps(db: Db, b: Batch)
    requires Inv(db) && Owned(db, b)
    ensures var next := db.(jobs := FailJobs(db.jobs, b.id),
                            dispatches := Mark(db.dispatches, b.id, DFailed));
            Keeps(db, next)
  {
    var next := db.(jobs := FailJobs(db.jobs, b.id), dispatches := Mark(db.dispatches, b.id, DFailed));
    MarkKeeps(db.dispatches, b.id, DFailed, false);
    forall k | k in db.jobs ensures Moved(db.jobs[k], next.jobs[k]) { OwnedRow(db, b, k); }
    MovesKeep(db, next);
  }

  /** Releasing a bundle leaves its id behind as a split envelope over the new limit. */
  lemma ReleasePartition(db: Db, b: Batch, now: Time, next: Db)
    requires Inv(db) && Owned(db, b) && b.id in db.dispatches && |Rows(db, b.id)| != 1
    requires b.route == db.dispatches[b.id].route
    requires next == db.(limits := LearnLimit(db.limits, b.route, |Rows(db, b.id)|),
                         dispatches := Mark(db.dispatches, b.id, DRejected),
                         jobs := ReleaseJobs(db.jobs, b.id, b.token, now))
    requires Frozen(db, b.id)
    ensures Partition(next)
  {
    BundleSize(db, b);
    forall d | d in next.dispatches
      ensures WellFormed(next, d) && (Frozen(next, d) || Split(next, d))
    {
      ReleaseRows(db, b, now, d);
      if d == b.id {
        ReleasedIsSplit(db, b, now, next);
      } else {
        assert WellFormed(db, d);
      }
    }
    forall k | k in next.jobs && next.jobs[k].batch.Some?
      ensures next.jobs[k].batch.value in next.dispatches
    {
      OwnedRow(db, b, k);
    }
  }

  /** The released bundle itself: more members than its route's new limit. */
  lemma ReleasedIsSplit(db: Db, b: Batch, now: Time, next: Db)
    requires Inv(db) && Owned(db, b) && b.id in db.dispatches && |Rows(db, b.id)| != 1
    requires b.route == db.dispatches[b.id].route && Frozen(db, b.id)
    requires next == db.(limits := LearnLimit(db.limits, b.route, |Rows(db, b.id)|),
                         dispatches := Mark(db.dispatches, b.id, DRejected),
                         jobs := ReleaseJobs(db.jobs, b.id, b.token, now))
    ensures WellFormed(next, b.id) && Split(next, b.id)
  {
    assert WellFormed(db, b.id);
    BundleSize(db, b);
    ReleaseRows(db, b, now, b.id);
  }

  lemma BundleSize(db: Db, b: Batch)
    requires b.id in db.dispatches && WellFormed(db, b.id) && Frozen(db, b.id) && |Rows(db, b.id)| != 1
    ensures |db.dispatches[b.id].members| == |Rows(db, b.id)| > 1
  {
    DistinctCount(db.dispatches[b.id].members);
    assert RowsOf(db.jobs, b.id) == Rows(db, b.id);
  }

  lemma ReleaseRows(db: Db, b: Batch, now: Time, d: DispatchId)
    requires Inv(db) && Owned(db, b)
    ensures var rows := RowsOf(ReleaseJobs(db.jobs, b.id, b.token, now), d);
            rows == if d == b.id then {} else RowsOf(db.jobs, d)
  {
    var jobs := ReleaseJobs(db.jobs, b.id, b.token, now);
    forall k | k in db.jobs
      ensures k in RowsOf(jobs, d) <==> d != b.id && k in RowsOf(db.jobs, d)
    {
      OwnedRow(db, b, k);
    }
  }

  lemma ReleaseKeeps(db: Db, b: Batch, now: Time, next: Db)
    requires Inv(db) && Owned(db, b) && b.id in db.dispatches && |Rows(db, b.id)| != 1
    requires b.route == db.dispatches[b.id].route
    requires next == db.(limits := LearnLimit(db.limits, b.route, |Rows(db, b.id)|),
                         dispatches := Mark(db.dispatches, b.id, DRejected),
                         jobs := ReleaseJobs(db.jobs, b.id, b.token, now))
    requires Frozen(db, b.id)
    ensures Keeps(db, next)
  {
    ReleasePartition(db, b, now, next);
    forall k | k in next.jobs
      ensures JobShape(next.jobs[k]) && (k.item in next.seeded ==> !next.jobs[k].Live())
      ensures db.jobs[k].state.Sent? ==> next.jobs[k] == db.jobs[k]
    {
      OwnedRow(db, b, k);
    }
    MarkKeeps(db.dispatches, b.id, DRejected, false);
  }

  /** A claimed batch names its saved envelope. */
  ghost predicate Names(db: Db, b: Batch) {
    && b.id in db.dispatches
    && b.route == db.dispatches[b.id].route
    && b.jobs == db.dispatches[b.id].members
    && b.body == db.dispatches[b.id].body
  }

  lemma OwnedIsFrozen(db: Db, b: Batch)
    requires Inv(db) && Names(db, b) && Owned(db, b)
    ensures Frozen(db, b.id) && |Rows(db, b.id)| == |b.jobs| > 0
  {
    assert WellFormed(db, b.id);
    assert Rows(db, b.id) == RowsOf(db.jobs, b.id);
  }

  lemma SplitKeeps(db: Db, b: Batch, now: Time)
    requires Inv(db) && Names(db, b)
    ensures var next := SplitRejected(db, b, now).0; Keeps(db, next)
  {
    if !Owned(db, b) {
      DisownKeeps(db, b);
    } else if !AllWanted(db, b.id, now) {
      CancelKeeps(db, b.id, Some(b.token));
    } else if Doubtful(db, b.id) {
      HoldKeeps(db, b);
    } else if |Rows(db, b.id)| == 1 {
      FailKeeps(db, b);
    } else {
      OwnedIsFrozen(db, b);
      ReleaseKeeps(db, b, now, SplitRejected(db, b, now).0);
    }
  }
}
