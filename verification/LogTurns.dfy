/** What one successful append does, told on files and clock readings: when the segment is archived
    first, what the segment holds then, and when archives are pruned. */
module LogTurns {
  import opened Basics
  import opened LogTables
  import opened LogRetention

  /** The record does not fit behind the segment, or the segment was last written on another day. */
  predicate MustTurn(l: Limits, f: File, record: Bytes, now: Time) {
    f.content != []
    && (|f.content| + |record| > l.maxBytes || (f.modified / 86400.0).Floor != (now / 86400.0).Floor)
  }

  /** Exactly then the record begins a new segment and the old one is an archive under its own time,
      unless pruning has removed it already; otherwise the record goes behind what was there. */
  lemma AppendTold(l: Limits, log: Log, record: Bytes, now: Time, luck: Luck, sorted: seq<Name>)
    requires ValidLimits(l) && Accepts(l, record) && log.rollback.None?
    requires forall n | n in sorted :: n in Listed(l, log, record, now, luck)
    requires Append(l, log, record, now, luck, sorted).1
    ensures var next := Append(l, log, record, now, luck, sorted).0;
            && next.active.Some? && next.active.value.modified == now && next.rollback.None?
            && (if log.active.Some? && MustTurn(l, log.active.value, record, now) then
                  && Segment(next) == record && luck.rotation == Rotated
                  && (luck.name in next.archives ==>
                        next.archives[luck.name] == Archive(log.active.value.modified, luck.size, Segment(log)))
                else
                  Segment(next) == Segment(log) + record
                  && forall n | n in next.archives :: n in log.archives && next.archives[n] == log.archives[n])
  {
    assert Repair(log, luck.touched) == log;
    var ready := Prepare(l, log, record, now, luck, sorted).0;
    WritePrefix(Segment(ready), record, luck.writes);
    assert [] + record == record;
  }

  /** Archives are pruned behind every turn, and otherwise once an hour has passed since the last time. */
  lemma PruningTold(l: Limits, log: Log, record: Bytes, now: Time, luck: Luck, sorted: seq<Name>)
    requires ValidLimits(l) && Accepts(l, record) && log.rollback.None?
    requires forall n | n in sorted :: n in Listed(l, log, record, now, luck)
    requires Append(l, log, record, now, luck, sorted).1
    ensures var next := Append(l, log, record, now, luck, sorted).0;
            var turned := log.active.Some? && MustTurn(l, log.active.value, record, now);
            && (turned || now >= log.nextCleanup ==> next.nextCleanup == now + 3600.0)
            && (!turned && now < log.nextCleanup ==>
                  next.nextCleanup == log.nextCleanup && next.archives == log.archives)
  {
    assert Repair(log, luck.touched) == log;
  }

  /** An owed rollback is done first, or nothing is; it restores the length the file had. */
  lemma RepairTold(log: Log, at: Time)
    requires log.rollback.Some? && log.active.Some? && log.rollback.value <= |Segment(log)|
    ensures var whole := Repair(log, at);
            && whole.rollback.None? && whole.archives == log.archives && whole.nextCleanup == log.nextCleanup
            && Segment(whole) == Segment(log)[..log.rollback.value] && whole.active.value.modified == at
  {
  }
}
