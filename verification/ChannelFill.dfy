/** How a fresh envelope is filled: one route, one expiry cohort, distinct unattempted jobs,
    every size ceiling, the reserved oldest card, and the shape the byte shrinking leaves. */
module ChannelFill {
  import opened Basics
  import opened ChannelTables
  import opened Ranking
  import opened ChannelOps
  import opened ChannelInvariant

  /** The rows kept when n cards of a fill survive the shrinking. */
  function Kept(fill: seq<JobId>, fair: bool, n: nat): (rows: seq<JobId>)
    requires 1 <= n <= |fill|
    ensures |rows| == n
  {
    if fair || n == 1 then fill[..n] else fill[..n - 1] + [fill[|fill| - 1]]
  }

  lemma KnownKept(db: Db, fill: seq<JobId>, fair: bool, n: nat)
    requires Known(db, fill) && 1 <= n <= |fill|
    ensures Known(db, Kept(fill, fair, n))
  {
  }

  lemma {:induction false} PopOfKept(fill: seq<JobId>, fair: bool, n: nat)
    requires 1 < n <= |fill|
    ensures PopCard(Kept(fill, fair, n), fair) == Kept(fill, fair, n - 1)
  {
    var rows := Kept(fill, fair, n);
    if !fair && n > 2 {
      assert rows[..n - 2] == fill[..n - 2];
    }
  }

  ghost predicate TooBig(db: Db, wire: Wire, rows: seq<JobId>) {
    Known(db, rows) && wire(Cards(db, rows)) > MAX_MESSAGE_BYTES
  }

  /** Shrinking stops at the largest number of cards that fits. */
  lemma {:induction false} ShrinkStops(db: Db, wire: Wire, fair: bool, fill: seq<JobId>, n: nat)
    requires Known(db, fill) && 1 <= n <= |fill| && Known(db, Kept(fill, fair, n))
    ensures var rows := Shrink(db, wire, fair, Kept(fill, fair, n));
            && 1 <= |rows| <= n
            && rows == Kept(fill, fair, |rows|)
            && (|rows| > 1 ==> !TooBig(db, wire, rows))
            && (forall m | |rows| < m <= n :: TooBig(db, wire, Kept(fill, fair, m)))
  {
    var rows := Kept(fill, fair, n);
    if |rows| > 1 && wire(Cards(db, rows)) > MAX_MESSAGE_BYTES {
      PopOfKept(fill, fair, n);
      KnownKept(db, fill, fair, n - 1);
      ShrinkStops(db, wire, fair, fill, n - 1);
      assert TooBig(db, wire, Kept(fill, fair, n));
    }
  }

  /** The whole fill before any byte shrinking. */
  ghost predicate FillOf(db: Db, now: Time, q: Query, p: Pass, fill: seq<JobId>)
    requires p.first in db.jobs
  {
    && FillPicked(db, now, q, p)
    && fill == WithOldest(p.first, p.picks, p.oldest)
  }

  ghost predicate OneCohort(db: Db, now: Time, first: JobId, rows: seq<JobId>)
    requires first in db.jobs
  {
    && rows != [] && rows[0] == first
    && Distinct(rows)
    && forall k | k in rows && k != first :: Eligible(db, first, now, k)
  }

  /** The first row and its picks. */
  lemma PicksAreOneCohort(db: Db, now: Time, q: Query, p: Pass)
    requires p.first in db.jobs && q.size >= 1 && FillPicked(db, now, q, p)
    requires forall r | r in db.limits :: db.limits[r] >= 1
    ensures OneCohort(db, now, p.first, [p.first] + p.picks)
    ensures 1 + |p.picks| <= BatchSize(db, q, p.first.route)
    ensures p.oldest.Some? ==> Eligible(db, p.first, now, p.oldest.value) && |p.picks| >= 1
  {
    var rows := [p.first] + p.picks;
    forall k | k in p.picks ensures Eligible(db, p.first, now, k) {}
    assert Distinct(rows);
  }

  /** The oldest job takes the place of the last card. */
  lemma OldestJoinsCohort(db: Db, now: Time, first: JobId, picks: seq<JobId>, oldest: JobId)
    requires first in db.jobs && OneCohort(db, now, first, [first] + picks) && |picks| >= 1
    requires Eligible(db, first, now, oldest)
    ensures OneCohort(db, now, first, WithOldest(first, picks, Some(oldest)))
    ensures |WithOldest(first, picks, Some(oldest))| == 1 + |picks|
  {
    var rows := [first] + picks;
    var fill := WithOldest(first, picks, Some(oldest));
    if oldest !in rows {
      forall i, j | 0 <= i < j < |fill| ensures fill[i] != fill[j] {
        assert fill[i] == rows[i];
      }
      forall k | k in fill && k != first ensures Eligible(db, first, now, k) {
        assert k == oldest || k in rows;
      }
    }
  }

  lemma FillIsOneCohort(db: Db, now: Time, q: Query, p: Pass, fill: seq<JobId>)
    requires p.first in db.jobs && q.size >= 1 && FillOf(db, now, q, p, fill)
    requires forall r | r in db.limits :: db.limits[r] >= 1
    ensures OneCohort(db, now, p.first, fill)
    ensures |fill| <= BatchSize(db, q, p.first.route)
  {
    PicksAreOneCohort(db, now, q, p);
    if p.oldest.Some? { OldestJoinsCohort(db, now, p.first, p.picks, p.oldest.value); }
  }

  /** An eligible job that no other eligible job was due before. */
  ghost predicate OldestEligible(db: Db, now: Time, first: JobId, k: JobId)
    requires first in db.jobs
  {
    && Eligible(db, first, now, k)
    && forall o | o in db.jobs && Eligible(db, first, now, o) :: db.jobs[k].due <= db.jobs[o].due
  }

  lemma PoolExhausted(ranks: map<JobId, Rank>, picks: seq<JobId>)
    requires Distinct(picks) && (forall k | k in picks :: k in ranks) && |picks| == |ranks|
    ensures forall k | k in ranks :: k in picks
  {
    var chosen := set k | k in picks;
    DistinctCount(picks);
    assert chosen <= ranks.Keys && |chosen| == |ranks.Keys|;
    SubsetOfSameSize(chosen, ranks.Keys);
  }

  /** A priority fill holds an oldest eligible job of its cohort, whenever it holds any. */
  lemma PriorityFillHoldsOldest(db: Db, now: Time, q: Query, p: Pass, fill: seq<JobId>)
    requires p.first in db.jobs && q.size >= 1 && FillOf(db, now, q, p, fill)
    requires db.jobs[p.first].attempts == 0 && ValueFirst(q, p.first.route)
    requires BatchSize(db, q, p.first.route) > 1
    requires exists k :: k in db.jobs && Eligible(db, p.first, now, k)
    ensures exists k :: k in fill && OldestEligible(db, now, p.first, k)
  {
    var size := BatchSize(db, q, p.first.route);
    var pool := Pool(db, p.first, now, true);
    if p.oldest.Some? {
      var eldest := p.oldest.value;
      var byAge := Pool(db, p.first, now, false);
      forall o | o in db.jobs && Eligible(db, p.first, now, o)
        ensures db.jobs[eldest].due <= db.jobs[o].due
      {
        assert !Less(byAge[o], byAge[eldest]);
      }
      assert eldest in fill;
    } else {
      assert |p.picks| + 1 < size;
      PoolExhausted(pool, p.picks);
      var byAge := Pool(db, p.first, now, false);
      assert byAge != map[] by {
        var k :| k in db.jobs && Eligible(db, p.first, now, k);
        assert k in byAge;
      }
      LowestExists(byAge);
      var eldest :| Lowest(byAge, eldest);
      assert Eligible(db, p.first, now, eldest) && eldest in pool && eldest in p.picks;
      assert fill == [p.first] + p.picks && eldest in fill;
      forall o | o in db.jobs && Eligible(db, p.first, now, o)
        ensures db.jobs[eldest].due <= db.jobs[o].due
      {
        assert !Less(byAge[o], byAge[eldest]);
      }
      assert OldestEligible(db, now, p.first, eldest);
    }
  }

  lemma KeptIsCohort(db: Db, now: Time, first: JobId, fill: seq<JobId>, fair: bool, n: nat)
    requires first in db.jobs && OneCohort(db, now, first, fill) && 1 <= n <= |fill|
    ensures OneCohort(db, now, first, Kept(fill, fair, n))
  {
    var rows := Kept(fill, fair, n);
    forall i, j | 0 <= i < j < n ensures rows[i] != rows[j] {
      assert rows[i] == fill[i];
    }
    forall k | k in rows ensures k in fill {}
  }

  /** What every row of a fresh cohort looks like before it is leased. */
  ghost predicate Unattempted(db: Db, now: Time, route: Route, k: JobId) {
    && k in db.jobs && k.route == route
    && db.jobs[k].batch.None? && db.jobs[k].state.Pending? && db.jobs[k].attempts == 0
    && db.jobs[k].due <= now
  }

  lemma CohortIsUnattempted(db: Db, now: Time, q: Query, first: JobId, rows: seq<JobId>)
    requires Candidate(db, first, now, q) && db.jobs[first].batch.None? && JobShape(db.jobs[first])
    requires OneCohort(db, now, first, rows)
    ensures forall k | k in rows :: Unattempted(db, now, first.route, k)
  {
    forall k | k in rows ensures Unattempted(db, now, first.route, k) {
      if k != first { assert Eligible(db, first, now, k); }
    }
  }

  /** Shrinking a whole fill. */
  lemma FillShrunk(db: Db, wire: Wire, fair: bool, fill: seq<JobId>)
    requires Known(db, fill) && fill != []
    ensures var rows := Shrink(db, wire, fair, fill);
            && 1 <= |rows| <= |fill| && rows == Kept(fill, fair, |rows|)
            && (|rows| > 1 ==> !TooBig(db, wire, rows))
            && (forall m | |rows| < m <= |fill| :: TooBig(db, wire, Kept(fill, fair, m)))
  {
    assert fill == Kept(fill, fair, |fill|);
    ShrinkStops(db, wire, fair, fill, |fill|);
  }

  /** The fill behind a fresh pass. */
  lemma FreshFill(db: Db, now: Time, q: Query, wire: Wire, p: Pass)
    requires Inv(db) && Picked(db, now, q, wire, p) && db.jobs[p.first].batch.None?
    ensures var fill := WithOldest(p.first, p.picks, p.oldest);
            && FillOf(db, now, q, p, fill) && fill != [] && Known(db, fill)
            && p.rows == Shrink(db, wire, q.fair, fill)
            && Candidate(db, p.first, now, q) && JobShape(db.jobs[p.first])
            && (forall r | r in db.limits :: db.limits[r] >= 1)
  {
    assert FreshRows(db, now, q, wire, p);
    assert JobShape(db.jobs[p.first]);
  }

  lemma ShrunkEnvelope(db: Db, now: Time, q: Query, wire: Wire, p: Pass)
    requires p.first in db.jobs && q.size >= 1 && db.jobs[p.first].batch.None?
    requires var fill := WithOldest(p.first, p.picks, p.oldest);
             && FillOf(db, now, q, p, fill) && fill != [] && Known(db, fill)
             && p.rows == Shrink(db, wire, q.fair, fill)
    requires Candidate(db, p.first, now, q) && JobShape(db.jobs[p.first])
    requires forall r | r in db.limits :: db.limits[r] >= 1
    ensures OneCohort(db, now, p.first, p.rows)
    ensures forall k | k in p.rows :: Unattempted(db, now, p.first.route, k)
    ensures |p.rows| <= BatchSize(db, q, p.first.route)
    ensures var fill := WithOldest(p.first, p.picks, p.oldest);
            && 1 <= |p.rows| <= |fill| && p.rows == Kept(fill, q.fair, |p.rows|)
            && (|p.rows| > 1 ==> !TooBig(db, wire, p.rows))
            && (forall m | |p.rows| < m <= |fill| :: TooBig(db, wire, Kept(fill, q.fair, m)))
  {
    var fill := WithOldest(p.first, p.picks, p.oldest);
    FillIsOneCohort(db, now, q, p, fill);
    FillShrunk(db, wire, q.fair, fill);
    KeptIsCohort(db, now, p.first, fill, q.fair, |p.rows|);
    CohortIsUnattempted(db, now, q, p.first, p.rows);
  }

  /** Everything a freshly filled envelope promises, after shrinking. */
  lemma EnvelopeFill(db: Db, now: Time, q: Query, wire: Wire, p: Pass)
    requires Inv(db) && q.size >= 1 && Picked(db, now, q, wire, p) && db.jobs[p.first].batch.None?
    ensures OneCohort(db, now, p.first, p.rows)
    ensures forall k | k in p.rows :: Unattempted(db, now, p.first.route, k)
    ensures |p.rows| <= q.size && (p.first.route.Free? ==> |p.rows| <= 5)
    ensures p.first.route in db.limits ==> |p.rows| <= db.limits[p.first.route]
    ensures |p.rows| > 1 ==> !TooBig(db, wire, p.rows)
    ensures var fill := WithOldest(p.first, p.picks, p.oldest);
            && 1 <= |p.rows| <= |fill|
            && p.rows == Kept(fill, q.fair, |p.rows|)
            && (forall m | |p.rows| < m <= |fill| :: TooBig(db, wire, Kept(fill, q.fair, m)))
  {
    FreshFill(db, now, q, wire, p);
    ShrunkEnvelope(db, now, q, wire, p);
  }

  /** An id is only taken while a free job is among its members if the envelope was split. */
  lemma FreeMemberMeansSplit(db: Db, d: DispatchId, k: JobId)
    requires Inv(db) && d in db.dispatches && k in db.dispatches[d].members && db.jobs[k].batch.None?
    ensures Split(db, d) && k.route == db.dispatches[d].route
  {
    assert WellFormed(db, d);
    assert k !in RowsOf(db.jobs, d);
  }

  /** A new envelope never reuses an id: its members are free, and a bundle that was split
      left a route limit below its own size. */
  lemma FreshId(db: Db, now: Time, q: Query, wire: Wire, p: Pass)
    requires Inv(db) && q.size >= 1 && Picked(db, now, q, wire, p) && db.jobs[p.first].batch.None?
    ensures p.rows != [] && DispatchIdFor(p.rows) !in db.dispatches
  {
    EnvelopeFill(db, now, q, wire, p);
    var d := DispatchIdFor(p.rows);
    if d in db.dispatches {
      assert WellFormed(db, d);
      FreeMemberMeansSplit(db, d, p.first);
    }
  }
}
