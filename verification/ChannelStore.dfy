/** The job store as it runs: tables updated in place, one method per transaction. Every method
    is proved against the transaction it stands for. */
module ChannelStore {
  import opened Basics
  import opened ChannelTables
  import opened Ranking
  import opened ChannelOps
  import opened ChannelInvariant
  import opened ChannelFill
  import opened ChannelObserved
  import opened ChannelOrder
  import opened ChannelEffects
  import opened ChannelClaim
  import opened ChannelIntake
  import opened ChannelWakeup

  datatype Receipt = BadBatch | Recorded(accepted: nat, added: nat, duplicates: nat)

  datatype PassResult = NoRow | Granted(batch: Batch) | Turned

  datatype ClaimResult = BadSelection | Nothing | Claimed(batch: Batch)

  ghost function Wakes(db: Db, now: Time, audience: Audience): (wakes: map<JobId, Time>)
    ensures forall k :: k in wakes <==> Work(db, now, audience, k)
    ensures forall k | k in wakes :: k in db.jobs && wakes[k] == WakeAt(db, k)
  {
    map k | k in db.jobs && Work(db, now, audience, k) :: WakeAt(db, k)
  }

  /** The least wake time is that of the earliest work. */
  lemma WakesAre(db: Db, now: Time, audience: Audience, who: Option<JobId>)
    requires var wakes := Wakes(db, now, audience);
             if who.None? then wakes == map[]
             else who.value in wakes && forall o | o in wakes :: wakes[who.value] <= wakes[o]
    ensures who.None? ==> !exists k :: Work(db, now, audience, k)
    ensures who.Some? ==> EarliestWork(db, now, audience, who.value)
  {
    var wakes := Wakes(db, now, audience);
    forall k | Work(db, now, audience, k) ensures k in wakes {}
  }

  lemma IdleIsNext(db: Db, now: Time, audience: Audience)
    requires !exists k :: Work(db, now, audience, k)
    ensures IsNextDue(db, now, audience, IDLE_WAIT)
  {
  }

  lemma EarliestIsNext(db: Db, now: Time, audience: Audience, k: JobId)
    requires EarliestWork(db, now, audience, k)
    ensures IsNextDue(db, now, audience, Max(0.0, Max(WakeAt(db, k), GateUntil(db.gates, GlobalGate)) - now))
  {
  }

  /** One more refused pass. */
  lemma RefusedMore(db: Db, now: Time, q: Query, wire: Wire, passes: seq<Pass>, pick: Pass)
    requires AllRefused(db, now, q, wire, passes) && Picked(RetireAll(db, passes), now, q, wire, pick)
    requires !Deliverable(RetireAll(db, passes), pick.rows, now)
    ensures AllRefused(db, now, q, wire, passes + [pick])
    ensures RetireAll(db, passes + [pick]) == Retire(RetireAll(db, passes), pick)
  {
    assert (passes + [pick])[..|passes|] == passes;
  }

  class JobStore {
    var items: map<ItemId, Observed>
    var seeded: set<ItemId>
    var jobs: map<JobId, Job>
    var dispatches: map<DispatchId, Dispatch>
    var limits: map<Route, nat>
    var gates: map<Gate, Time>
    var turns: map<Route, nat>
    /** Rendered envelope size; nothing is assumed about it. */
    const wire: Wire

    function Tables(): Db
      reads this
    {
      Db(items, seeded, jobs, dispatches, limits, gates, turns)
    }

    ghost predicate Valid()
      reads this
    {
      Inv(Tables())
    }

    constructor (wire: Wire)
      ensures Valid() && Tables() == EMPTY && this.wire == wire
    {
      this.wire := wire;
      items, seeded, jobs, dispatches := map[], {}, map[], map[];
      limits, gates, turns := map[], map[], map[];
    }

    // -------------------------------------------------------------- intake

    method Record(batch: seq<Item>, now: Time, seedOnly: bool) returns (r: Receipt)
      requires Valid()
      modifies this
      ensures Valid()
      ensures !(1 <= |batch| <= MAX_BATCH) ==> r.BadBatch? && Tables() == old(Tables())
      ensures 1 <= |batch| <= MAX_BATCH ==>
                && Tables() == RecordAll(old(Tables()), batch, now, seedOnly)
                && r.Recorded? && r.accepted == |batch| == r.added + r.duplicates
                && |items| == |old(items)| + r.added
    {
      if !(1 <= |batch| <= MAX_BATCH) {
        return BadBatch;
      }
      RecordKeeps(Tables(), batch, now, seedOnly);
      var added, duplicates := RecordItems(batch, now, seedOnly);
      r := Recorded(|batch|, added, duplicates);
    }

    method RecordItems(batch: seq<Item>, now: Time, seedOnly: bool) returns (added: nat, duplicates: nat)
      modifies this
      ensures Tables() == RecordAll(old(Tables()), batch, now, seedOnly)
      ensures added + duplicates == |batch| && |items| == |old(items)| + added
    {
      added, duplicates := 0, 0;
      ghost var start := Tables();
      for i := 0 to |batch|
        invariant Tables() == RecordAll(start, batch[..i], now, seedOnly)
        invariant added + duplicates == i && added == |items| - |start.items|
      {
        assert batch[..i + 1][..i] == batch[..i];
        var isNew := RecordNext(batch[i], now, seedOnly);
        if isNew { added := added + 1; } else { duplicates := duplicates + 1; }
      }
      assert batch[..|batch|] == batch;
    }

    method RecordNext(item: Item, now: Time, seedOnly: bool) returns (isNew: bool)
      modifies this
      ensures Tables() == RecordItem(old(Tables()), item, now, seedOnly)
      ensures |items| == |old(items)| + if isNew then 1 else 0
    {
      isNew := item.id !in items;
      assert !isNew ==> items.Keys + {item.id} == items.Keys;
      assert |items| == |items.Keys|;
      RecordOne(item, now, seedOnly);
      assert |items| == |items.Keys|;
    }

    /** INSERT ... DO NOTHING, then the guarded UPDATE. */
    method AddRoute(item: Item, route: Route, firstSeen: Time, now: Time)
      modifies this`jobs
      ensures jobs == AddJob(old(jobs), item, route, firstSeen, now)
    {
      var k := JobId(item.id, route);
      if k !in jobs {
        jobs := jobs[k := NewJob(item, route, firstSeen, now)];
      } else if Rearmable(jobs[k], now) {
        jobs := jobs[k := jobs[k].(state := Pending, nextAttempt := jobs[k].due, reason := NoReason)];
      }
    }

    method RecordOne(item: Item, now: Time, seedOnly: bool)
      modifies this
      ensures Tables() == RecordItem(old(Tables()), item, now, seedOnly)
      ensures items.Keys == old(items).Keys + {item.id}
      ensures forall k :: ItemTold(old(Tables()), Tables(), item, now, seedOnly, k)
    {
      forall k ensures ItemTold(Tables(), RecordItem(Tables(), item, now, seedOnly), item, now, seedOnly, k) {
        RecordTells(Tables(), item, now, seedOnly, k);
      }
      var firstSeen := if item.id in items then items[item.id].firstSeen else now;
      items := items[item.id := Observed(item, firstSeen, now)];
      if seedOnly {
        seeded := seeded + {item.id};
        jobs := SeedJobs(jobs, item.id);
      }
      if item.id in seeded {
        return;
      }
      var routes := RouteKeys(item);
      ghost var before := jobs;
      for i := 0 to |routes|
        invariant jobs == AddJobs(before, item, routes[..i], firstSeen, now)
        invariant items == old(items)[item.id := Observed(item, firstSeen, now)]
        invariant dispatches == old(dispatches) && limits == old(limits)
        invariant gates == old(gates) && turns == old(turns)
        invariant seeded == if seedOnly then old(seeded) + {item.id} else old(seeded)
      {
        assert routes[..i + 1][..i] == routes[..i];
        AddRoute(item, routes[i], firstSeen, now);
      }
      assert routes[..|routes|] == routes;
    }

    // -------------------------------------------------------------- settlement

    method CancelDispatch(d: DispatchId, token: Option<Token>)
      modifies this`jobs, this`dispatches
      ensures Tables() == Cancel(old(Tables()), d, token)
      ensures forall k | k in jobs && jobs[k].batch == Some(d) && jobs[k].Live() ::
                token.Some? && jobs[k].token != token
    {
      jobs := CancelJobs(jobs, d, token);
      dispatches := Mark(dispatches, d, DSkipped);
    }

    method OwnedBatch(b: Batch) returns (owned: bool)
      modifies this`jobs, this`dispatches
      ensures owned == Owned(old(Tables()), b)
      ensures Tables() == if owned then old(Tables()) else Disown(old(Tables()), b)
    {
      if Superseded(Tables(), b) {
        return false;
      }
      owned := Owned(Tables(), b);
      if !owned {
        CancelDispatch(b.id, Some(b.token));
      }
    }

    method Validate(b: Batch, now: Time) returns (ok: bool)
      requires Valid()
      modifies this`jobs, this`dispatches
      ensures Valid() && (Tables(), ok) == ValidateDispatch(old(Tables()), b, now)
    {
      ValidateKeeps(Tables(), b, now);
      ok := OwnedBatch(b);
      if ok && !AllWanted(Tables(), b.id, now) {
        CancelDispatch(b.id, Some(b.token));
        ok := false;
      }
    }

    method Finish(b: Batch, state: JobState, messageId: Option<string>, reason: Reason, now: Time)
      returns (ok: bool, valid: bool)
      requires Valid()
      modifies this`jobs, this`dispatches
      ensures Valid() && valid == (state.Sent? || state.Failed? || state.Skipped?)
      ensures !valid ==> !ok && Tables() == old(Tables())
      ensures valid ==> (Tables(), ok) == FinishBatch(old(Tables()), b, state, messageId, reason, now)
      ensures ok ==> OnlyMembers(old(Tables()), Tables(), b.id, SettledAs(state, messageId, reason, now))
    {
      valid := state.Sent? || state.Failed? || state.Skipped?;
      if !valid {
        return false, false;
      }
      FinishKeeps(Tables(), b, state, messageId, reason, now);
      ok := OwnedBatch(b);
      if ok {
        FinishEffect(Tables(), b, state, messageId, reason, now);
        jobs := FinishJobs(jobs, b.id, b.token, state, messageId, reason, now);
        dispatches := Mark(dispatches, b.id, TerminalMark(state));
      }
    }

    method Retry(b: Batch, now: Time, delay: Time, reason: Reason, countAttempt: bool, ambiguous: bool)
      returns (ok: bool)
      requires Valid()
      modifies this`jobs, this`dispatches
      ensures Valid()
      ensures (Tables(), ok) == RetryBatch(old(Tables()), b, now, delay, reason, countAttempt, ambiguous)
      ensures ok ==> OnlyMembers(old(Tables()), Tables(), b.id,
                                 GivenBack(now + Max(0.01, delay), reason, countAttempt))
    {
      RetryKeeps(Tables(), b, now, delay, reason, countAttempt, ambiguous);
      ok := OwnedBatch(b);
      if ok {
        RetryEffect(Tables(), b, now, delay, reason, countAttempt, ambiguous);
        jobs := RetryJobs(jobs, b.id, b.token, now + Max(0.01, delay), reason, countAttempt);
        dispatches := Doubt(Mark(dispatches, b.id, DPending), b.id, ambiguous);
      }
    }

    method SplitBatch(b: Batch, now: Time) returns (outcome: SplitOutcome)
      requires Valid() && Names(Tables(), b)
      modifies this`jobs, this`dispatches, this`limits
      ensures Valid() && (Tables(), outcome) == SplitRejected(old(Tables()), b, now)
      ensures ForeignKeys(old(Tables()))
      ensures Owned(old(Tables()), b) ==> SplitTold(old(Tables()), b, now, Tables(), outcome)
    {
      SplitKeeps(Tables(), b, now);
      if Owned(Tables(), b) { SplitEffect(Tables(), b, now); }
      var owned := OwnedBatch(b);
      if owned {
        outcome := SplitOwned(b, now);
      } else {
        outcome := StaleSplit;
      }
    }

    /** An owned envelope: stale, held for review because it may have been accepted, or refused. */
    method SplitOwned(b: Batch, now: Time) returns (outcome: SplitOutcome)
      requires ForeignKeys(Tables()) && Owned(Tables(), b)
      modifies this`jobs, this`dispatches, this`limits
      ensures (Tables(), outcome) == SplitRejected(old(Tables()), b, now)
    {
      if !AllWanted(Tables(), b.id, now) {
        CancelDispatch(b.id, Some(b.token));
        outcome := StaleSplit;
      } else if Doubtful(Tables(), b.id) {
        jobs := HoldJobs(jobs, b.id, b.token);
        dispatches := Mark(dispatches, b.id, DPending);
        outcome := HeldSplit;
      } else {
        outcome := RefuseBatch(b, now);
      }
    }

    /** A definite 413 for an envelope never doubted: fail the single card, split the bundle. */
    method RefuseBatch(b: Batch, now: Time) returns (outcome: SplitOutcome)
      modifies this`jobs, this`dispatches, this`limits
      requires ForeignKeys(Tables()) && Owned(Tables(), b) && AllWanted(Tables(), b.id, now)
      requires !Doubtful(Tables(), b.id)
      ensures (Tables(), outcome) == SplitRejected(old(Tables()), b, now)
    {
      var n := |Rows(Tables(), b.id)|;
      if n == 1 {
        jobs := FailJobs(jobs, b.id);
        dispatches := Mark(dispatches, b.id, DFailed);
        return FailedSplit;
      }
      limits := LearnLimit(limits, b.route, n);
      dispatches := Mark(dispatches, b.id, DRejected);
      jobs := ReleaseJobs(jobs, b.id, b.token, now);
      return SplitDone;
    }

    method DeferGate(gate: Gate, until: Time)
      requires Valid()
      modifies this`gates
      ensures Valid() && Tables() == Defer(old(Tables()), gate, until)
      ensures GateUntil(gates, gate) >= until && forall g | g in old(gates) :: g in gates && gates[g] >= old(gates)[g]
    {
      DeferKeeps(Tables(), gate, until);
      gates := gates[gate := if gate in gates then Max(gates[gate], until) else until];
    }

    // -------------------------------------------------------------- claiming

    /** SELECT COALESCE(MAX(last_claim),0)+1 */
    method FollowingTurn() returns (turn: nat)
      ensures turn == NextTurn(turns)
    {
      var most, left := 0, turns.Keys;
      while left != {}
        invariant left <= turns.Keys
        invariant forall r | r in turns && r !in left :: turns[r] <= most
        invariant most == 0 || most in turns.Values
        decreases |left|
      {
        var r :| r in left;
        left := left - {r};
        if most < turns[r] { most := turns[r]; }
      }
      turn := most + 1;
      assert IsMaxTurn(turns, most);
      SameMaxTurn(turns, most, NextTurn(turns) - 1);
    }

    /** ORDER BY jobs.due, jobs.id LIMIT 1 over the cohort */
    method OldestRow(first: JobId, now: Time, ghost byValue: bool, ghost more: seq<JobId>)
      returns (k: JobId)
      requires first in jobs && more != []
      requires forall m | m in more :: m in Pool(Tables(), first, now, byValue)
      ensures Lowest(Pool(Tables(), first, now, false), k)
    {
      var byAge := Pool(Tables(), first, now, false);
      assert more[0] in more && more[0] in byAge;
      k := LowestRow(byAge);
    }

    /** The rows of a new envelope around its first row, with the reserved oldest card. */
    method PickFill(first: JobId, now: Time, q: Query)
      returns (rows: seq<JobId>, ghost picks: seq<JobId>, ghost eldest: Option<JobId>)
      requires first in jobs && BatchSize(Tables(), q, first.route) >= 1
      ensures FillPicked(Tables(), now, q, Pass(first, picks, eldest, []))
      ensures rows == WithOldest(first, picks, eldest)
    {
      picks, eldest := [], None;
      rows := [first];
      var size := BatchSize(Tables(), q, first.route);
      // Never repack retries.
      if jobs[first].attempts == 0 {
        rows, picks, eldest := FillRows(first, now, q, size);
        FillPickedHere(Tables(), now, q, first, picks, eldest);
      }
    }

    /** Picks in fill order, the last card replaced by the oldest eligible job when reserved. */
    method FillRows(first: JobId, now: Time, q: Query, size: nat)
      returns (rows: seq<JobId>, ghost picks: seq<JobId>, ghost eldest: Option<JobId>)
      requires first in jobs && size >= 1
      ensures TopOf(Pool(Tables(), first, now, ValueFirst(q, first.route)), size - 1, picks)
      ensures if Reserves(q, first.route, size, |picks| + 1)
              then eldest.Some? && Lowest(Pool(Tables(), first, now, false), eldest.value)
              else eldest.None?
      ensures rows == WithOldest(first, picks, eldest)
    {
      var byValue := ValueFirst(q, first.route);
      var more := TopRows(Pool(Tables(), first, now, byValue), size - 1);
      picks, eldest := more, None;
      rows := [first] + more;
      if Reserves(q, first.route, size, |rows|) {
        var oldestRow := OldestRow(first, now, byValue, more);
        eldest := Some(oldestRow);
        if oldestRow !in rows { rows := rows[..|rows| - 1] + [oldestRow]; }
      }
    }

    /** Drop cards until the rendered envelope fits. */
    method ShrinkRows(fill: seq<JobId>, fair: bool) returns (rows: seq<JobId>)
      requires fill != [] && Known(Tables(), fill)
      ensures rows == Shrink(Tables(), wire, fair, fill)
    {
      rows := fill;
      while |rows| > 1 && wire(Cards(Tables(), rows)) > MAX_MESSAGE_BYTES
        invariant |rows| > 0 && Known(Tables(), rows)
        invariant Shrink(Tables(), wire, fair, rows) == Shrink(Tables(), wire, fair, fill)
        decreases |rows|
      {
        rows := PopCard(rows, fair);
      }
    }

    /** The saved members of a frozen envelope, or a fresh fill around the first row. */
    method RowsFor(first: JobId, now: Time, q: Query) returns (rows: seq<JobId>, ghost p: Pass)
      requires Valid() && 1 <= q.size <= 10 && Lowest(Candidates(Tables(), now, q), first)
      ensures p.first == first && p.rows == rows != [] && Picked(Tables(), now, q, wire, p)
    {
      if jobs[first].batch.Some? {
        p := Pass(first, [], None, []);
        SavedRowsPoint(Tables(), p);
        assert WellFormed(Tables(), jobs[first].batch.value);
        rows := dispatches[jobs[first].batch.value].members;
        p := Pass(first, [], None, rows);
      } else {
        ghost var picks, eldest;
        assert BatchSize(Tables(), q, first.route) >= 1;
        rows, picks, eldest := PickFill(first, now, q);
        FillIsOneCohort(Tables(), now, q, Pass(first, picks, eldest, []), rows);
        rows := ShrinkRows(rows, q.fair);
        p := Pass(first, picks, eldest, rows);
      }
    }

    /** The row the claim's query returns. */
    method FirstRow(now: Time, q: Query) returns (first: Option<JobId>)
      requires ForeignKeys(Tables())
      ensures first.None? ==> Candidates(Tables(), now, q) == map[]
      ensures first.Some? ==> Lowest(Candidates(Tables(), now, q), first.value)
                              && FirstInLine(Tables(), now, q, first.value)
    {
      var ranks := Candidates(Tables(), now, q);
      if ranks == map[] { return None; }
      var k := LowestRow(ranks);
      ClaimOrder(Tables(), now, q, k);
      first := Some(k);
    }

    /** One pass: no row left, an envelope leased, or an undeliverable one retired. */
    method ClaimPass(now: Time, q: Query, token: Token) returns (result: PassResult, ghost pick: Pass)
      requires Valid() && 1 <= q.size <= 10
      modifies this
      ensures Valid() && gates == old(gates)
      ensures result.NoRow? ==> Candidates(Tables(), now, q) == map[] && Tables() == old(Tables())
      ensures result.Granted? ==>
                && ForeignKeys(old(Tables())) && FirstInLine(old(Tables()), now, q, pick.first)
                && Chosen(old(Tables()), now, q, wire, pick) && Known(old(Tables()), pick.rows)
                && Tables() == Lease(old(Tables()), pick, token, now)
                && result.batch == BatchOf(old(Tables()), pick, token)
      ensures result.Turned? ==>
                && ForeignKeys(old(Tables())) && FirstInLine(old(Tables()), now, q, pick.first)
                && Picked(old(Tables()), now, q, wire, pick) && Known(old(Tables()), pick.rows)
                && !Deliverable(old(Tables()), pick.rows, now) && Tables() == Retire(old(Tables()), pick)
    {
      pick := Pass(JobId("", Free), [], None, []);
      var line := FirstRow(now, q);
      if line.None? {
        return NoRow, pick;
      }
      var first := line.value;
      var rows;
      rows, pick := RowsFor(first, now, q);
      if Deliverable(Tables(), rows, now) {
        LeaseKeeps(Tables(), now, q, wire, pick, token);
        var batch := GrantLease(first, rows, token, now, pick);
        return Granted(batch), pick;
      }
      RetireKeeps(Tables(), now, q, wire, pick);
      RetirePass(first, rows, pick);
      result := Turned;
    }

    method ClaimBatch(now: Time, q: Query, token: Token)
      returns (result: ClaimResult, ghost passes: seq<Pass>, ghost pick: Pass)
      requires Valid()
      modifies this
      ensures Valid() && |passes| <= 100
      ensures result.BadSelection? <==> !(1 <= q.size <= 10)
      ensures result.BadSelection? ==> Tables() == old(Tables())
      ensures !result.BadSelection? ==> AllRefused(Expire(old(Tables()), now), now, q, wire, passes)
      ensures result.Nothing? ==>
                && Tables() == RetireAll(Expire(old(Tables()), now), passes)
                && (GateUntil(gates, GlobalGate) > now || Candidates(Tables(), now, q) == map[]
                    || |passes| == 100)
      ensures result.Claimed? ==>
                var before := RetireAll(Expire(old(Tables()), now), passes);
                && GateUntil(old(gates), GlobalGate) <= now
                && ForeignKeys(before) && FirstInLine(before, now, q, pick.first)
                && Chosen(before, now, q, wire, pick) && Known(before, pick.rows)
                && Tables() == Lease(before, pick, token, now)
                && result.batch == BatchOf(before, pick, token)
    {
      passes, pick := [], Pass(JobId("", Free), [], None, []);
      if !(1 <= q.size <= 10) {
        return BadSelection, passes, pick;
      }
      ExpireKeeps(Tables(), now);
      jobs := ExpireJobs(jobs, now);
      ghost var due := Tables();
      if GateUntil(gates, GlobalGate) > now {
        return Nothing, passes, pick;
      }
      for i := 0 to 100
        invariant Valid() && |passes| == i
        invariant AllRefused(due, now, q, wire, passes) && Tables() == RetireAll(due, passes)
        invariant gates == old(gates)
      {
        var attempt;
        attempt, pick := ClaimPass(now, q, token);
        match attempt {
          case NoRow => return Nothing, passes, pick;
          case Granted(batch) => return Claimed(batch), passes, pick;
          case Turned =>
            RefusedMore(due, now, q, wire, passes, pick);
            passes := passes + [pick];
        }
      }
      return Nothing, passes, pick;
    }

    // -------------------------------------------------------------- scheduling

    method RouteActiveUntil(route: Route) returns (until: Time)
      ensures until == ActiveUntil(jobs, route)
    {
      var held := Held(jobs, route);
      if held == {} {
        return 0.0;
      }
      var last: JobId :| last in held;
      var left := held - {last};
      while left != {}
        invariant last in held && left <= held && last !in left
        invariant forall o | o in held && o !in left :: jobs[o].leaseUntil.value <= jobs[last].leaseUntil.value
        decreases |left|
      {
        var o :| o in left;
        left := left - {o};
        if jobs[last].leaseUntil.value < jobs[o].leaseUntil.value { last := o; }
      }
      until := jobs[last].leaseUntil.value;
    }

    method WakeTime(k: JobId) returns (at: Time)
      requires k in jobs
      ensures at == WakeAt(Tables(), k)
    {
      var active := RouteActiveUntil(k.route);
      at := Max(Max(jobs[k].due, jobs[k].nextAttempt),
                Max(OwnLease(jobs[k]), Max(active, GateUntil(gates, RouteGate(k.route)))));
    }

    /** The least of the wake times. */
    method LeastWake(now: Time, audience: Audience, ghost wakes: map<JobId, Time>)
      returns (soonest: Option<Time>, ghost who: Option<JobId>)
      requires forall k :: k in wakes <==> Work(Tables(), now, audience, k)
      requires forall k | k in wakes :: k in jobs && wakes[k] == WakeAt(Tables(), k)
      ensures soonest.Some? == who.Some? && (who.None? ==> wakes == map[])
      ensures who.Some? ==> who.value in wakes && soonest.value == wakes[who.value]
                            && forall o | o in wakes :: wakes[who.value] <= wakes[o]
    {
      soonest, who := None, None;
      var left := jobs.Keys;
      while left != {}
        invariant left <= jobs.Keys && who.Some? == soonest.Some?
        invariant who.Some? ==> who.value in wakes && soonest.value == wakes[who.value]
        invariant forall o | o in wakes && o !in left :: who.Some? && soonest.value <= wakes[o]
        decreases |left|
      {
        var k :| k in left;
        left := left - {k};
        if Work(Tables(), now, audience, k) {
          var at := WakeTime(k);
          if soonest.None? || at < soonest.value {
            soonest, who := Some(at), Some(k);
          }
        }
      }
      assert forall o | o in wakes :: o in jobs;
    }

    /** The earliest wake time of the audience's work. */
    method EarliestWake(now: Time, audience: Audience) returns (soonest: Option<Time>, ghost who: Option<JobId>)
      ensures soonest.Some? == who.Some?
      ensures who.None? ==> !exists k :: Work(Tables(), now, audience, k)
      ensures who.Some? ==> EarliestWork(Tables(), now, audience, who.value)
                            && soonest.value == WakeAt(Tables(), who.value)
    {
      soonest, who := LeastWake(now, audience, Wakes(Tables(), now, audience));
      WakesAre(Tables(), now, audience, who);
    }

    method NextDueIn(now: Time, audience: Audience) returns (wait: Time)
      ensures IsNextDue(Tables(), now, audience, wait)
    {
      ghost var who;
      var soonest;
      soonest, who := EarliestWake(now, audience);
      if soonest.None? {
        IdleIsNext(Tables(), now, audience);
        wait := IDLE_WAIT;
      } else {
        EarliestIsNext(Tables(), now, audience, who.value);
        wait := Max(0.0, Max(soonest.value, GateUntil(gates, GlobalGate)) - now);
      }
    }

    /** Paid work is due or in flight: Free work and greetings yield to it. */
    predicate HasDuePaid(now: Time)
      reads this
    {
      DuePaid(Tables(), now)
    }

    /** Invalidated observations are retired without taking a worker slot. */
    method RetirePass(first: JobId, rows: seq<JobId>, ghost p: Pass)
      requires first in jobs && p.first == first && p.rows == rows
      modifies this`jobs, this`dispatches
      ensures Tables() == Retire(old(Tables()), p)
    {
      if jobs[first].batch.Some? {
        CancelDispatch(jobs[first].batch.value, None);
      } else {
        jobs := SkipJobs(jobs, Gone(Tables(), rows));
      }
    }

    /** Freeze the envelope if it is new, or doubt the saved one when its lease is taken over. */
    method FreezeEnvelope(first: JobId, rows: seq<JobId>, d: DispatchId, ghost p: Pass)
      requires first in jobs && rows != [] && Known(Tables(), rows)
      requires p.first == first && p.rows == rows && d == EnvelopeId(Tables(), p)
      modifies this`dispatches
      ensures dispatches == old(dispatches)[d := Envelope(old(Tables()), p)]
    {
      if !(jobs[first].batch.Some? && d in dispatches) {
        var body := Body(Cards(Tables(), rows), d);
        dispatches := dispatches[d := Dispatch(first.route, rows, body, DPending, jobs[first].batch.Some?)];
      } else if AnyLeased(Tables(), rows) {
        dispatches := Doubt(dispatches, d, true);
      }
      dispatches := Mark(dispatches, d, DLeased);
    }

    /** Freeze the envelope if it is new, lease its rows and take the route's next turn. */
    method GrantLease(first: JobId, rows: seq<JobId>, token: Token, now: Time, ghost p: Pass)
      returns (batch: Batch)
      requires first in jobs && rows != [] && Known(Tables(), rows)
      requires p.first == first && p.rows == rows
      modifies this`jobs, this`dispatches, this`turns
      ensures Tables() == Lease(old(Tables()), p, token, now)
      ensures batch == BatchOf(old(Tables()), p, token)
    {
      var d := if jobs[first].batch.Some? then jobs[first].batch.value else DispatchIdFor(rows);
      var attempts := MostAttempts(Tables(), rows);
      FreezeEnvelope(first, rows, d, p);
      jobs := LeaseJobs(jobs, (set k | k in rows), d, token, now + LEASE);
      var turn := FollowingTurn();
      turns := turns[first.route := turn];
      batch := Batch(d, first.route, rows, dispatches[d].body, token, attempts);
    }
  }

  lemma FillPickedHere(db: Db, now: Time, q: Query, first: JobId, more: seq<JobId>, eldest: Option<JobId>)
    requires first in db.jobs && db.jobs[first].attempts == 0 && BatchSize(db, q, first.route) >= 1
    requires TopOf(Pool(db, first, now, ValueFirst(q, first.route)), BatchSize(db, q, first.route) - 1, more)
    requires eldest.Some? == Reserves(q, first.route, BatchSize(db, q, first.route), |more| + 1)
    requires eldest.Some? ==> Lowest(Pool(db, first, now, false), eldest.value)
    ensures FillPicked(db, now, q, Pass(first, more, eldest, []))
  {
  }

  lemma SameMaxTurn(turns: map<Route, nat>, a: nat, b: nat)
    requires IsMaxTurn(turns, a) && IsMaxTurn(turns, b)
    ensures a == b
  {
  }
}
