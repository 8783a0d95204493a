/** Whole histories of a rolling log: whole records, the budget, and the retained suffix. */
module LogRun {
  import opened Basics
  import opened LogTables
  import opened LogRetention

  /** active: the records of the segment; archived: those of each archive; history: all records
      ever written whole. */
  datatype System = System(
    log: Log, now: Time, active: seq<Bytes>, archived: map<Name, seq<Bytes>>, history: seq<Bytes>)

  datatype Event = AppendRecord(record: Bytes, now: Time, luck: Luck, sorted: seq<Name>) | Restart | Crash

  /** The process dies: what it owed is forgotten, and a new writer opens the directory. */
  function Crashed(log: Log): Log {
    log.(rollback := None, nextCleanup := 0.0)
  }

  ghost predicate Enabled(l: Limits, s: System, e: Event) {
    match e
    case Restart => true
    case Crash => true
    case AppendRecord(record, now, luck, sorted) =>
      && now >= 0.0 && SortedNames(Listed(l, s.log, record, now, luck), sorted)
      && forall n | n in sorted :: n in Listed(l, s.log, record, now, luck)
  }

  /** A new writer on any directory: no rollback is owed and a cleanup is due. */
  ghost predicate Opened(s: System) {
    s.log.rollback.None? && s.log.nextCleanup == 0.0 && WholeRecords(s.log, s.active)
  }

  /** Did this append move the segment to an archive? */
  predicate Turns(l: Limits, s: System, record: Bytes, now: Time, luck: Luck) {
    && Accepts(l, record) && !(s.log.rollback.Some? && !luck.repaired)
    && NeedsRotation(l, Repair(s.log, luck.touched), record, now)
    && (luck.rotation.Rotated? || luck.rotation == KeptOriginal(false))
  }

  function Step(l: Limits, s: System, e: Event): System
    requires e.AppendRecord? ==> forall n | n in e.sorted :: n in Listed(l, s.log, e.record, e.now, e.luck)
  {
    match e
    case Restart => s.(log := s.log.(nextCleanup := 0.0))
    case Crash => s.(log := Crashed(s.log))
    case AppendRecord(record, now, luck, sorted) =>
      var next := Append(l, s.log, record, now, luck, sorted).0;
      var active := Kept(l, s.log, s.active, record, now, luck, sorted);
      System(next, now, active,
             if Turns(l, s, record, now, luck) then s.archived[luck.name := s.active] else s.archived,
             if Wrote(l, s.log, record, now, luck, sorted) then s.history + [record] else s.history)
  }

  /** All the record's bytes went out. */
  predicate Wrote(l: Limits, log: Log, record: Bytes, now: Time, luck: Luck, sorted: seq<Name>)
    requires forall n | n in sorted :: n in Listed(l, log, record, now, luck)
  {
    Accepts(l, record)
    && var (ready, ok) := Prepare(l, log, record, now, luck, sorted);
       ok && WriteAll(Segment(ready), record, luck.writes).1
  }

  ghost predicate Run(l: Limits, states: seq<System>, events: seq<Event>) {
    && |states| == |events| + 1 && Opened(states[0]) && ValidLimits(l)
    && forall i | 0 <= i < |events| ::
         Enabled(l, states[i], events[i]) && states[i + 1] == Step(l, states[i], events[i])
  }

  ghost predicate Clean(e: Event) {
    e.AppendRecord? ==> DeletionsSucceed(e.luck)
  }

  // ---------------------------------------------------------------- whole records

  /** Nothing is written behind the length that is to be restored. */
  predicate NothingTorn(log: Log) {
    log.rollback.None? || |Segment(log)| == log.rollback.value
  }

  predicate CrashesWhole(s: System, e: Event) {
    e.Crash? ==> NothingTorn(s.log)
  }

  lemma StepWhole(l: Limits, s: System, e: Event)
    requires WholeRecords(s.log, s.active) && Enabled(l, s, e)
    ensures WholeRecords(Step(l, s, e).log, Step(l, s, e).active) <==> CrashesWhole(s, e)
  {
    if e.AppendRecord? { AppendWhole(l, s.log, s.active, e.record, e.now, e.luck, e.sorted); }
    if e.Crash? { DeathKeepsWholeIff(s.log, s.active); }
  }

  /** In every history the segment is whole records unless a rollback is owed, or was when the process
      died. */
  lemma {:induction false} AlwaysWhole(l: Limits, states: seq<System>, events: seq<Event>, n: nat)
    requires Run(l, states, events) && n < |states| && forall i | 0 <= i < n :: CrashesWhole(states[i], events[i])
    ensures WholeRecords(states[n].log, states[n].active)
  {
    if n > 0 {
      AlwaysWhole(l, states, events, n - 1);
      StepWhole(l, states[n - 1], events[n - 1]);
    }
  }

  /** And exactly then: a history is whole throughout just when no crash finds a torn tail. */
  lemma WholeThroughoutIff(l: Limits, states: seq<System>, events: seq<Event>)
    requires Run(l, states, events)
    ensures (forall n | 0 <= n < |states| :: WholeRecords(states[n].log, states[n].active))
            <==> forall i | 0 <= i < |events| :: CrashesWhole(states[i], events[i])
  {
    if forall i | 0 <= i < |events| :: CrashesWhole(states[i], events[i]) {
      forall n | 0 <= n < |states| ensures WholeRecords(states[n].log, states[n].active) {
        AlwaysWhole(l, states, events, n);
      }
    } else {
      var i :| 0 <= i < |events| && !CrashesWhole(states[i], events[i]);
      if WholeRecords(states[i].log, states[i].active) {
        StepWhole(l, states[i], events[i]);
        assert !WholeRecords(states[i + 1].log, states[i + 1].active);
      }
    }
  }

  // ---------------------------------------------------------------- death with a rollback owed

  function TornTail(log: Log, records: seq<Bytes>): Bytes
    requires WholeRecords(log, records)
  {
    Segment(log)[|Flat(records)|..]
  }

  /** Dying leaves whole records exactly when the file still has the length to be restored, or none
      is owed; what is left behind is the torn tail. */
  lemma DeathKeepsWholeIff(log: Log, records: seq<Bytes>)
    requires WholeRecords(log, records)
    ensures WholeRecords(Crashed(log), records) <==> NothingTorn(log)
    ensures Segment(Crashed(log)) == Flat(records) + TornTail(log, records)
  {
    var front, all := Flat(records), Segment(log);
    assert all[..|front|] == front && all == all[..|front|] + all[|front|..];
  }

  /** The next record that fits goes behind the tail, which no later append removes from between. */
  lemma TailGoesUnnoticed(l: Limits, log: Log, records: seq<Bytes>, record: Bytes, now: Time, luck: Luck,
                          sorted: seq<Name>)
    requires WholeRecords(log, records) && Accepts(l, record) && !NeedsRotation(l, Crashed(log), record, now)
    requires forall n | n in sorted :: n in Listed(l, Crashed(log), record, now, luck)
    requires Append(l, Crashed(log), record, now, luck, sorted).1
    ensures Segment(Append(l, Crashed(log), record, now, luck, sorted).0)
            == Flat(records) + TornTail(log, records) + record
  {
    var dead := Crashed(log);
    UnturnedSegment(l, dead, record, now, luck, sorted);
    WritePrefix(Segment(dead), record, luck.writes);
    DeathKeepsWholeIff(log, records);
  }

  lemma UnturnedSegment(l: Limits, log: Log, record: Bytes, now: Time, luck: Luck, sorted: seq<Name>)
    requires log.rollback.None? && !NeedsRotation(l, log, record, now)
    requires forall n | n in sorted :: n in Listed(l, log, record, now, luck)
    ensures Prepare(l, log, record, now, luck, sorted).0.active == log.active
  {
    assert Repair(log, luck.touched) == log;
  }

  /** A write that fails, and whose truncate fails too, leaves what it had written as such a tail:
      none exactly when its first call already wrote nothing. */
  lemma FailedTruncateOwes(l: Limits, log: Log, records: seq<Bytes>, record: Bytes, now: Time, luck: Luck)
    requires WholeRecords(log, records) && log.rollback.None? && record != []
    requires !WriteAll(Segment(log), record, luck.writes).1 && !luck.truncated
    ensures var next := Write(log, record, now, luck).0;
            && WholeRecords(next, records) && TornTail(next, records) < record
            && (NothingTorn(next) <==> luck.writes == [] || luck.writes[0] <= 0)
  {
    WritePrefix(Segment(log), record, luck.writes);
    if luck.writes != [] && luck.writes[0] > 0 {
      var n := Min(luck.writes[0], |record|);
      WritePrefix(Segment(log) + record[..n], record[n..], luck.writes[1..]);
    }
  }

  /** A segment torn by a crash, as a run: k bytes of the first record stay in front of the second. */
  lemma CrashTears(l: Limits, torn: Bytes, whole: Bytes, k: nat, now: Time)
    returns (states: seq<System>, events: seq<Event>)
    requires ValidLimits(l) && 0 < k < |torn| <= l.maxBytes && 0 < |whole| && k + |whole| <= l.maxBytes && now >= 0.0
    ensures Run(l, states, events) && |events| == 3
    ensures events[0].AppendRecord? && events[0].record == torn && events[1].Crash?
    ensures events[2].AppendRecord? && events[2].record == whole && events[2].sorted == []
    ensures Append(l, states[2].log, whole, now, events[2].luck, []).1
    ensures states[3].history == states[3].active == [whole] && states[3].log.rollback.None?
    ensures Segment(states[3].log) == torn[..k] + whole
  {
    var start := System(Log(None, map[], None, 0.0), now, [], map[], []);
    var first := AppendRecord(torn, now, Luck(true, now, Rotated, 0, 1, None, [k], false, true), []);
    var second := AppendRecord(whole, now, Luck(true, now, Rotated, 0, 1, None, [|whole|], true, true), []);
    NoneListed(start.log.archives);
    var owing := TornAppend(l, start, first, k);
    var crashed := Step(l, owing, Crash);
    var after := WholeAppend(l, crashed, second);
    states, events := [start, owing, crashed, after], [first, Crash, second];
  }

  lemma NoneListed(archives: map<Name, Archive>)
    requires archives == map[]
    ensures SortedNames(archives, [])
  {
    assert Ages(archives).Keys == {};
  }

  /** An append on a log without archives, torn after k bytes. */
  lemma TornAppend(l: Limits, s: System, e: Event, k: nat) returns (next: System)
    requires s.log.active.None? && s.log.rollback.None? && s.log.archives == map[] && SortedNames(s.log.archives, [])
    requires s.active == s.history == []
    requires e.AppendRecord? && e.now >= 0.0 && 0 < k < |e.record| <= l.maxBytes && e.sorted == []
    requires e.luck.writes == [k] && !e.luck.truncated && e.luck.deletions.None?
    ensures Enabled(l, s, e) && next == Step(l, s, e)
    ensures next.log.active == Some(File(e.record[..k], e.now)) && next.log.rollback == Some(0)
    ensures next.log.archives == map[] && next.active == next.history == []
  {
    assert Repair(s.log, e.luck.touched) == s.log;
    assert Listed(l, s.log, e.record, e.now, e.luck) == s.log.archives;
    assert [k][1..] == [] && e.record[k..] != [];
    assert WriteAll([], e.record, [k]) == ([] + e.record[..k], false);
    assert [] + e.record[..k] == e.record[..k];
    next := Step(l, s, e);
    assert Doomed(l, s.log.archives, [], e.now) == 0;
    assert next.log.archives.Keys == {};
  }

  /** A whole append behind what a log without archives holds. */
  lemma WholeAppend(l: Limits, s: System, e: Event) returns (next: System)
    requires s.log.active.Some? && s.log.rollback.None? && s.log.archives == map[] && SortedNames(s.log.archives, [])
    requires e.AppendRecord? && e.now >= 0.0 && Accepts(l, e.record) && e.sorted == []
    requires s.log.active.value.modified == e.now && |Segment(s.log)| + |e.record| <= l.maxBytes
    requires e.luck.writes == [|e.record|] && e.luck.stamped && e.luck.deletions.None?
    ensures Enabled(l, s, e) && next == Step(l, s, e) && Append(l, s.log, e.record, e.now, e.luck, []).1
    ensures Segment(next.log) == Segment(s.log) + e.record && next.log.rollback.None?
    ensures next.active == s.active + [e.record] && next.history == s.history + [e.record]
  {
    assert Repair(s.log, e.luck.touched) == s.log;
    assert Listed(l, s.log, e.record, e.now, e.luck) == s.log.archives;
    var n := |e.record|;
    assert e.record[..n] == e.record && e.record[n..] == [];
    assert WriteAll(Segment(s.log), e.record, [n]) == (Segment(s.log) + e.record, true);
    next := Step(l, s, e);
  }

  // ---------------------------------------------------------------- the budget

  ghost predicate BudgetInv(l: Limits, log: Log) {
    Bounded(l, log.archives) || log.nextCleanup == 0.0
  }

  lemma PrepareBounds(l: Limits, log: Log, record: Bytes, now: Time, luck: Luck, sorted: seq<Name>)
    requires ValidLimits(l) && BudgetInv(l, log) && DeletionsSucceed(luck) && now >= 0.0 && Accepts(l, record)
    requires forall n | n in sorted :: n in Listed(l, log, record, now, luck)
    requires SortedNames(Listed(l, log, record, now, luck), sorted)
    ensures var (ready, ok) := Prepare(l, log, record, now, luck, sorted);
            && BudgetInv(l, ready)
            && (ok ==> Bounded(l, ready.archives) && |Segment(ready)| + |record| <= l.maxBytes)
  {
    var whole := Repair(log, luck.touched);
    if !(log.rollback.Some? && !luck.repaired) {
      if NeedsRotation(l, whole, record, now) {
        if luck.rotation.Rotated? { PruneBounds(l, Rotate(whole, luck).0, sorted, now); }
      } else if now >= whole.nextCleanup {
        PruneBounds(l, whole, sorted, now);
      }
    }
  }

  lemma AppendBounds(l: Limits, log: Log, record: Bytes, now: Time, luck: Luck, sorted: seq<Name>)
    requires ValidLimits(l) && BudgetInv(l, log) && DeletionsSucceed(luck) && now >= 0.0
    requires forall n | n in sorted :: n in Listed(l, log, record, now, luck)
    requires SortedNames(Listed(l, log, record, now, luck), sorted)
    ensures var (next, ok) := Append(l, log, record, now, luck, sorted);
            && BudgetInv(l, next)
            && (ok && record != [] ==> TotalSize(next.archives) + |Segment(next)| <= l.totalBytes
                                       && |next.archives| <= l.backups && |Segment(next)| <= l.maxBytes)
  {
    if Accepts(l, record) {
      PrepareBounds(l, log, record, now, luck, sorted);
      WritePrefix(Segment(Prepare(l, log, record, now, luck, sorted).0), record, luck.writes);
    }
  }

  lemma {:induction false} AlwaysBudgeted(l: Limits, states: seq<System>, events: seq<Event>, n: nat)
    requires Run(l, states, events) && n < |states| && forall i | 0 <= i < |events| :: Clean(events[i])
    ensures BudgetInv(l, states[n].log)
  {
    if n > 0 {
      AlwaysBudgeted(l, states, events, n - 1);
      var s, e := states[n - 1], events[n - 1];
      if e.AppendRecord? { AppendBounds(l, s.log, e.record, e.now, e.luck, e.sorted); }
    }
  }

  /** While deletions succeed, every successful append leaves archives and segment within the byte
      budget and the archives within their number. */
  lemma SuccessWithinBudget(l: Limits, states: seq<System>, events: seq<Event>, n: nat)
    requires Run(l, states, events) && n < |events| && forall i | 0 <= i < |events| :: Clean(events[i])
    requires events[n].AppendRecord? && events[n].record != []
    requires var e := events[n]; Append(l, states[n].log, e.record, e.now, e.luck, e.sorted).1
    ensures TotalSize(states[n + 1].log.archives) + |Segment(states[n + 1].log)| <= l.totalBytes
    ensures |states[n + 1].log.archives| <= l.backups
  {
    AlwaysBudgeted(l, states, events, n);
    var e := events[n];
    AppendBounds(l, states[n].log, e.record, e.now, e.luck, e.sorted);
  }
}
