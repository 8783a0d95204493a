/** A rolling log: one active segment, its archives, and what an append does to them when any
    file operation may fail. */
module LogTables {
  import opened Basics
  import opened Ranking

  type Bytes = seq<bv8>

  /** An archive's place in the directory's name order. */
  type Name = nat

  const DAY: Time := 86400.0
  const CLEANUP: Time := 3600.0

  datatype File = File(content: Bytes, modified: Time)

  /** size is the compressed size on disk, content what it decompresses to. */
  datatype Archive = Archive(modified: Time, size: nat, content: Bytes)

  datatype Limits = Limits(maxBytes: nat, totalBytes: nat, retention: Time, backups: nat)

  /** rollback: a failed truncate still owed; nextCleanup: when pruning is due by itself. */
  datatype Log = Log(
    active: Option<File>, archives: map<Name, Archive>, rollback: Option<nat>, nextCleanup: Time)

  predicate ValidLimits(l: Limits) {
    1 <= l.maxBytes <= l.totalBytes && l.retention >= DAY && l.backups >= 1
  }

  // ---------------------------------------------------------------- what may go wrong

  /** The compressed copy fails, or the original cannot be removed and the copy is withdrawn. */
  datatype Rotation = Rotated | CopyFailed | KeptOriginal(withdrawn: bool)

  /** repaired, touched: whether and when an owed rollback is done; name and size of the archive,
      should one be made; deletions: archives pruning may remove before one cannot be; writes: what
      each write call returns until one raises. */
  datatype Luck = Luck(
    repaired: bool, touched: Time, rotation: Rotation, name: Name, size: nat, deletions: Option<nat>, writes: seq<int>,
    truncated: bool, stamped: bool)

  predicate DeletionsSucceed(luck: Luck) {
    luck.deletions.None? && luck.rotation != KeptOriginal(false)
  }

  // ---------------------------------------------------------------- pruning

  function SizeOf(archives: map<Name, Archive>, names: seq<Name>): nat
    requires forall n | n in names :: n in archives
  {
    if names == [] then 0 else archives[names[0]].size + SizeOf(archives, names[1..])
  }

  function Ages(archives: map<Name, Archive>): map<Name, Rank> {
    map n | n in archives :: Rank(0, 0, 0, 0, archives[n].modified, n as real)
  }

  /** Pruning may stop: the oldest archive left is young enough, and the rest fits. */
  predicate Enough(l: Limits, archives: map<Name, Archive>, left: seq<Name>, now: Time)
    requires forall n | n in left :: n in archives
  {
    left != [] && archives[left[0]].modified > now - l.retention
    && SizeOf(archives, left) + l.maxBytes <= l.totalBytes && |left| <= l.backups
  }

  /** How many of the oldest archives go. */
  function Doomed(l: Limits, archives: map<Name, Archive>, names: seq<Name>, now: Time): (k: nat)
    requires forall n | n in names :: n in archives
    ensures k <= |names|
  {
    if names == [] || Enough(l, archives, names, now) then 0 else 1 + Doomed(l, archives, names[1..], now)
  }

  function Without(archives: map<Name, Archive>, names: seq<Name>): map<Name, Archive> {
    map n | n in archives && n !in names :: archives[n]
  }

  /** Pruning over the archives sorted by age; a deletion that fails ends it with an error. */
  function Prune(l: Limits, log: Log, sorted: seq<Name>, now: Time, deletions: Option<nat>): (Log, bool)
    requires forall n | n in sorted :: n in log.archives
  {
    var k := Doomed(l, log.archives, sorted, now);
    if deletions.Some? && deletions.value < k
    then (log.(archives := Without(log.archives, sorted[..deletions.value])), false)
    else (log.(archives := Without(log.archives, sorted[..k]), nextCleanup := now + CLEANUP), true)
  }

  // ---------------------------------------------------------------- appending

  function DayOf(t: Time): int {
    (t / DAY).Floor
  }

  predicate NeedsRotation(l: Limits, log: Log, record: Bytes, now: Time) {
    && log.active.Some? && log.active.value.content != []
    && (|log.active.value.content| + |record| > l.maxBytes || DayOf(log.active.value.modified) != DayOf(now))
  }

  function Archived(log: Log, luck: Luck): map<Name, Archive>
    requires log.active.Some?
  {
    log.archives[luck.name := Archive(log.active.value.modified, luck.size, log.active.value.content)]
  }

  /** The original goes only after its compressed copy is complete. */
  function Rotate(log: Log, luck: Luck): (Log, bool)
    requires log.active.Some?
  {
    match luck.rotation
    case Rotated => (log.(active := None, archives := Archived(log, luck)), true)
    case CopyFailed => (log, false)
    case KeptOriginal(withdrawn) => (if withdrawn then log else log.(archives := Archived(log, luck)), false)
  }

  /** Write calls that may be short; the bytes on disk, and whether all of them are. */
  function WriteAll(content: Bytes, rest: Bytes, writes: seq<int>): (Bytes, bool)
    decreases |rest|
  {
    if rest == [] then (content, true)
    else if writes == [] || writes[0] <= 0 then (content, false)
    else
      var n := Min(writes[0], |rest|);
      WriteAll(content + rest[..n], rest[n..], writes[1..])
  }

  function Segment(log: Log): Bytes {
    if log.active.Some? then log.active.value.content else []
  }

  /** Write behind the segment, or undo what was written; an undo that fails is owed. */
  function Write(log: Log, record: Bytes, now: Time, luck: Luck): (Log, bool) {
    var (content, complete) := WriteAll(Segment(log), record, luck.writes);
    if complete then (log.(active := Some(File(content, now))), luck.stamped)
    else if luck.truncated then (log.(active := Some(File(Segment(log), now)), rollback := None), false)
    else (log.(active := Some(File(content, now)), rollback := Some(|Segment(log)|)), false)
  }

  function Repair(log: Log, at: Time): Log {
    if log.rollback.Some? && log.active.Some? && log.rollback.value <= |log.active.value.content|
    then log.(active := Some(File(log.active.value.content[..log.rollback.value], at)), rollback := None)
    else log.(rollback := None)
  }

  predicate Accepts(l: Limits, record: Bytes) {
    0 < |record| <= l.maxBytes
  }

  ghost predicate SortedNames(archives: map<Name, Archive>, sorted: seq<Name>) {
    TopOf(Ages(archives), |archives|, sorted)
  }

  /** The archives whose age order pruning would use. */
  function Listed(l: Limits, log: Log, record: Bytes, now: Time, luck: Luck): map<Name, Archive> {
    var whole := Repair(log, luck.touched);
    if NeedsRotation(l, whole, record, now) && luck.rotation.Rotated? then Archived(whole, luck) else log.archives
  }

  /** The part before the write: repair, rotate, prune. Each failure ends the append there. */
  function Prepare(l: Limits, log: Log, record: Bytes, now: Time, luck: Luck, sorted: seq<Name>): (Log, bool)
    requires forall n | n in sorted :: n in Listed(l, log, record, now, luck)
  {
    if log.rollback.Some? && !luck.repaired then (log, false)
    else
      var whole := Repair(log, luck.touched);
      if NeedsRotation(l, whole, record, now) then
        var (turned, ok) := Rotate(whole, luck);
        assert ok ==> turned.archives == Listed(l, log, record, now, luck);
        if ok then Prune(l, turned, sorted, now, luck.deletions) else (turned, false)
      else if now >= whole.nextCleanup then
        assert whole.archives == Listed(l, log, record, now, luck);
        Prune(l, whole, sorted, now, luck.deletions)
      else (whole, true)
  }

  function Append(l: Limits, log: Log, record: Bytes, now: Time, luck: Luck, sorted: seq<Name>): (Log, bool)
    requires forall n | n in sorted :: n in Listed(l, log, record, now, luck)
  {
    if !Accepts(l, record) then (log, record == [])
    else
      var (ready, ok) := Prepare(l, log, record, now, luck, sorted);
      if ok then Write(ready, record, now, luck) else (ready, false)
  }
}
