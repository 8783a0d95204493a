/** The byte budget and the atomicity of appends. */
module LogRetention {
  import opened Basics
  import opened Ranking
  import opened LogTables

  // ---------------------------------------------------------------- pruning

  /** What is left after pruning is young enough, fits, and is few enough. */
  ghost predicate Suffices(l: Limits, archives: map<Name, Archive>, left: seq<Name>, now: Time)
    requires forall n | n in left :: n in archives
  {
    && (forall n | n in left :: archives[n].modified > now - l.retention)
    && SizeOf(archives, left) + l.maxBytes <= l.totalBytes && |left| <= l.backups
  }

  ghost predicate ByAge(archives: map<Name, Archive>, names: seq<Name>)
    requires forall n | n in names :: n in archives
  {
    Distinct(names) && forall i, j | 0 <= i < j < |names| :: archives[names[i]].modified <= archives[names[j]].modified
  }

  lemma SortedByAge(archives: map<Name, Archive>, sorted: seq<Name>)
    requires SortedNames(archives, sorted)
    ensures forall n :: n in sorted <==> n in archives
    ensures ByAge(archives, sorted)
  {
    assert Ages(archives).Keys == archives.Keys;
    assert |Ages(archives)| == |archives.Keys| == |archives|;
    DistinctCount(sorted);
    SubsetOfSameSize((set n | n in sorted), archives.Keys);
    forall i, j | 0 <= i < j < |sorted| ensures archives[sorted[i]].modified <= archives[sorted[j]].modified {
      assert !Less(Ages(archives)[sorted[j]], Ages(archives)[sorted[i]]);
    }
  }

  lemma EnoughIff(l: Limits, archives: map<Name, Archive>, left: seq<Name>, now: Time)
    requires ValidLimits(l) && (forall n | n in left :: n in archives) && ByAge(archives, left)
    ensures left == [] || Enough(l, archives, left, now) <==> Suffices(l, archives, left, now)
  {
    if left != [] {
      forall n | n in left ensures archives[left[0]].modified <= archives[n].modified {
        var i :| 0 <= i < |left| && left[i] == n;
      }
    }
  }

  /** Pruning removes the shortest oldest-first prefix whose removal suffices. */
  lemma {:induction false} DoomedIsShortest(l: Limits, archives: map<Name, Archive>, names: seq<Name>, now: Time)
    requires ValidLimits(l) && (forall n | n in names :: n in archives) && ByAge(archives, names)
    ensures var k := Doomed(l, archives, names, now);
            && Suffices(l, archives, names[k..], now)
            && forall j | 0 <= j < k :: !Suffices(l, archives, names[j..], now)
    decreases |names|
  {
    EnoughIff(l, archives, names, now);
    var k := Doomed(l, archives, names, now);
    assert names[0..] == names;
    if k > 0 {
      forall i, j | 0 <= i < j < |names[1..]|
        ensures archives[names[1..][i]].modified <= archives[names[1..][j]].modified
      {
        assert names[1..][i] == names[i + 1] && names[1..][j] == names[j + 1];
      }
      DoomedIsShortest(l, archives, names[1..], now);
      assert names[1..][k - 1..] == names[k..];
      forall j | 0 <= j < k ensures !Suffices(l, archives, names[j..], now) {
        if j > 0 { assert names[1..][j - 1..] == names[j..]; }
      }
    }
  }

  /** Whatever is removed is no younger than whatever stays. */
  lemma RemovedIsOlder(archives: map<Name, Archive>, sorted: seq<Name>, k: nat, gone: Name, kept: Name)
    requires SortedNames(archives, sorted) && k <= |sorted|
    requires gone in sorted[..k] && kept in Without(archives, sorted[..k])
    ensures gone in archives && archives[gone].modified <= archives[kept].modified
  {
    SortedByAge(archives, sorted);
    var i :| 0 <= i < k && sorted[i] == gone;
    var j :| 0 <= j < |sorted| && sorted[j] == kept;
    InPrefix(sorted, j, k);
  }

  lemma InPrefix<T>(s: seq<T>, j: nat, k: nat)
    requires j < |s| && k <= |s|
    ensures j < k ==> s[j] in s[..k]
    ensures j >= k ==> s[j] in s[k..]
  {
    if j < k { assert s[..k][j] == s[j]; } else { assert s[k..][j - k] == s[j]; }
  }

  // ---------------------------------------------------------------- the budget

  ghost function AnyName(archives: map<Name, Archive>): (n: Name)
    requires archives != map[]
    ensures n in archives
  {
    var n :| n in archives;
    n
  }

  ghost function TotalSize(archives: map<Name, Archive>): nat
    decreases |archives|
  {
    if archives == map[] then 0
    else
      var n := AnyName(archives);
      archives[n].size + TotalSize(archives - {n})
  }

  lemma {:induction false} SizeFrame(a: map<Name, Archive>, b: map<Name, Archive>, names: seq<Name>)
    requires forall n | n in names :: n in a && n in b && a[n].size == b[n].size
    ensures SizeOf(a, names) == SizeOf(b, names)
    decreases |names|
  {
    if names != [] { SizeFrame(a, b, names[1..]); }
  }

  lemma {:induction false} SizeSplit(archives: map<Name, Archive>, names: seq<Name>, i: nat)
    requires i < |names| && forall n | n in names :: n in archives
    ensures (forall n | n in names[..i] + names[i + 1..] :: n in archives)
    ensures SizeOf(archives, names) == archives[names[i]].size + SizeOf(archives, names[..i] + names[i + 1..])
    decreases |names|
  {
    var rest := names[..i] + names[i + 1..];
    forall n | n in rest ensures n in archives { assert n in names; }
    if i == 0 {
      assert rest == names[1..];
    } else {
      SizeSplit(archives, names[1..], i - 1);
      assert names[1..][..i - 1] + names[1..][i - 1 + 1..] == rest[1..];
      assert names[1..][i - 1] == names[i] && rest[0] == names[0];
    }
  }

  /** The order of a listing does not matter to its size. */
  lemma {:induction false} SizeIsTotal(archives: map<Name, Archive>, names: seq<Name>)
    requires Distinct(names) && forall n :: n in names <==> n in archives
    ensures SizeOf(archives, names) == TotalSize(archives) && |names| == |archives|
    decreases |archives|
  {
    DistinctCount(names);
    assert (set n | n in names) == archives.Keys;
    assert |archives.Keys| == |archives|;
    if archives != map[] {
      var n := AnyName(archives);
      var i :| 0 <= i < |names| && names[i] == n;
      var rest := names[..i] + names[i + 1..];
      var fewer := archives - {n};
      SizeSplit(archives, names, i);
      RestNames(archives, names, i);
      SizeFrame(archives, fewer, rest);
      SizeIsTotal(fewer, rest);
    } else {
      assert |names| == 0;
    }
  }

  lemma RestNames(archives: map<Name, Archive>, names: seq<Name>, i: nat)
    requires Distinct(names) && (forall n :: n in names <==> n in archives) && i < |names|
    ensures var rest := names[..i] + names[i + 1..];
            Distinct(rest) && forall n :: n in rest <==> n in archives - {names[i]}
  {
    var rest := names[..i] + names[i + 1..];
    forall n | n in archives - {names[i]} ensures n in rest {
      var k :| 0 <= k < |names| && names[k] == n;
      assert k != i;
      if k < i { assert rest[k] == n; } else { assert rest[k - 1] == n; }
    }
  }

  /** Archives leave room for a full active segment, and are few enough. */
  ghost predicate Bounded(l: Limits, archives: map<Name, Archive>) {
    TotalSize(archives) + l.maxBytes <= l.totalBytes && |archives| <= l.backups
  }

  lemma KeptNames(archives: map<Name, Archive>, sorted: seq<Name>, k: nat)
    requires k <= |sorted| && Distinct(sorted) && forall n :: n in sorted <==> n in archives
    ensures forall n :: n in sorted[k..] <==> n in Without(archives, sorted[..k])
    ensures Distinct(sorted[k..])
  {
    forall n ensures n in sorted[k..] <==> n in Without(archives, sorted[..k]) {
      if n in archives {
        var j :| 0 <= j < |sorted| && sorted[j] == n;
        InPrefix(sorted, j, k);
      }
    }
  }

  lemma PruneBounds(l: Limits, log: Log, sorted: seq<Name>, now: Time)
    requires ValidLimits(l) && SortedNames(log.archives, sorted)
    ensures (forall n | n in sorted :: n in log.archives)
    ensures var (next, ok) := Prune(l, log, sorted, now, None);
            ok && Bounded(l, next.archives) && next.active == log.active && next.rollback == log.rollback
  {
    SortedByAge(log.archives, sorted);
    DoomedIsShortest(l, log.archives, sorted, now);
    var k := Doomed(l, log.archives, sorted, now);
    var kept := Without(log.archives, sorted[..k]);
    KeptNames(log.archives, sorted, k);
    SizeFrame(log.archives, kept, sorted[k..]);
    SizeIsTotal(kept, sorted[k..]);
  }

  // ---------------------------------------------------------------- writing

  /** However short the writes are, the file ends in a prefix of the record, whole on success. */
  lemma {:induction false} WritePrefix(content: Bytes, rest: Bytes, writes: seq<int>)
    ensures var (after, complete) := WriteAll(content, rest, writes);
            && content <= after <= content + rest
            && (complete <==> after == content + rest)
    decreases |rest|
  {
    if rest != [] && writes != [] && writes[0] > 0 {
      var n := Min(writes[0], |rest|);
      WritePrefix(content + rest[..n], rest[n..], writes[1..]);
      assert content + rest[..n] + rest[n..] == content + rest;
    }
  }

  function Flat(records: seq<Bytes>): Bytes {
    if records == [] then [] else Flat(records[..|records| - 1]) + records[|records| - 1]
  }

  /** The segment is whole records, or whole records and a torn tail that the owed rollback cuts. */
  ghost predicate WholeRecords(log: Log, records: seq<Bytes>) {
    match log.rollback
    case None => Segment(log) == Flat(records)
    case Some(n) => log.active.Some? && n == |Flat(records)| && Flat(records) <= Segment(log)
  }

  /** The records of the active segment after an append. */
  function Kept(l: Limits, log: Log, records: seq<Bytes>, record: Bytes, now: Time, luck: Luck,
          sorted: seq<Name>): seq<Bytes>
    requires forall n | n in sorted :: n in Listed(l, log, record, now, luck)
  {
    if !Accepts(l, record) then records
    else
      var (ready, ok) := Prepare(l, log, record, now, luck, sorted);
      var left := if ready.active.None? then [] else records;
      if ok && WriteAll(Segment(ready), record, luck.writes).1 then left + [record] else left
  }

  lemma RepairWhole(log: Log, records: seq<Bytes>, at: Time)
    requires WholeRecords(log, records)
    ensures WholeRecords(Repair(log, at), records) && Repair(log, at).rollback.None?
    ensures Repair(log, at).archives == log.archives
    ensures log.rollback.None? ==> Repair(log, at) == log
  {
  }

  lemma PrepareWhole(l: Limits, log: Log, records: seq<Bytes>, record: Bytes, now: Time, luck: Luck, sorted: seq<Name>)
    requires WholeRecords(log, records) && forall n | n in sorted :: n in Listed(l, log, record, now, luck)
    ensures var (ready, ok) := Prepare(l, log, record, now, luck, sorted);
            && WholeRecords(ready, if ready.active.None? then [] else records)
            && (ok ==> ready.rollback.None?)
            && (log.rollback.Some? && !luck.repaired ==> ready == log && !ok)
  {
    RepairWhole(log, records, luck.touched);
  }

  /** Under any short writes and failed truncates the segment stays whole records unless a rollback
      is owed; and while it is owed and cannot be done, nothing at all is written. */
  lemma AppendWhole(l: Limits, log: Log, records: seq<Bytes>, record: Bytes, now: Time, luck: Luck, sorted: seq<Name>)
    requires WholeRecords(log, records) && forall n | n in sorted :: n in Listed(l, log, record, now, luck)
    ensures var (next, ok) := Append(l, log, record, now, luck, sorted);
            && WholeRecords(next, Kept(l, log, records, record, now, luck, sorted))
            && (ok ==> next.rollback.None? || record == [])
            && (log.rollback.Some? && !luck.repaired ==> next == log)
  {
    if Accepts(l, record) {
      PrepareWhole(l, log, records, record, now, luck, sorted);
      var (ready, ok) := Prepare(l, log, record, now, luck, sorted);
      var left := if ready.active.None? then [] else records;
      if ok {
        WritePrefix(Segment(ready), record, luck.writes);
        assert (left + [record])[..|left|] == left;
        assert Flat(left + [record]) == Flat(left) + record;
      }
    }
  }
}
