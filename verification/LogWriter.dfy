/** The rolling log as it runs: the segment, its archives and the owed rollback changed in place by
    an append whose every file operation may fail. */
module LogWriter {
  import opened Basics
  import opened Ranking
  import opened LogTables
  import opened LogRetention

  class RollingLog {
    const limits: Limits
    var active: Option<File>
    var archives: map<Name, Archive>
    var rollback: Option<nat>
    var nextCleanup: Time

    function State(): Log
      reads this
    {
      Log(active, archives, rollback, nextCleanup)
    }

    constructor (limits: Limits, active: Option<File>, archives: map<Name, Archive>)
      requires ValidLimits(limits)
      ensures this.limits == limits && State() == Log(active, archives, None, 0.0)
    {
      this.limits, this.active, this.archives, rollback, nextCleanup := limits, active, archives, None, 0.0;
    }

    method RotateSegment(luck: Luck) returns (ok: bool)
      requires active.Some?
      modifies this
      ensures (State(), ok) == Rotate(old(State()), luck)
    {
      match luck.rotation {
        case CopyFailed => ok := false;
        case Rotated =>
          archives := archives[luck.name := Archive(active.value.modified, luck.size, active.value.content)];
          active := None;
          ok := true;
        case KeptOriginal(withdrawn) =>
          // The copy is withdrawn again, unless that fails too.
          if !withdrawn {
            archives := archives[luck.name := Archive(active.value.modified, luck.size, active.value.content)];
          }
          ok := false;
      }
    }

    method SumSizes(names: seq<Name>) returns (total: nat)
      requires forall n | n in names :: n in archives
      ensures total == SizeOf(archives, names)
    {
      total := 0;
      var i := |names|;
      while i > 0
        invariant 0 <= i <= |names| && total == SizeOf(archives, names[i..])
      {
        i := i - 1;
        assert names[i..][1..] == names[i + 1..] && names[i..][0] == names[i];
        total := archives[names[i]].size + total;
      }
      assert names[0..] == names;
    }

    /** The directory's archives, oldest first. */
    method ListByAge() returns (sorted: seq<Name>)
      ensures SortedNames(archives, sorted) && forall n | n in sorted :: n in archives
    {
      sorted := TopRows(Ages(archives), |archives|);
      assert |Ages(archives)| == |Ages(archives).Keys| && Ages(archives).Keys == archives.Keys;
    }

    /** Delete from the oldest until what is left is young enough, fits and is few enough. */
    method DeleteOldest(sorted: seq<Name>, now: Time, deletions: Option<nat>) returns (ok: bool)
      requires forall n | n in sorted :: n in archives
      modifies this`archives
      ensures var k := Doomed(limits, old(archives), sorted, now);
              if deletions.Some? && deletions.value < k
              then !ok && archives == Without(old(archives), sorted[..deletions.value])
              else ok && archives == Without(old(archives), sorted[..k])
    {
      var start := archives;
      var total := SumSizes(sorted);
      total := total + limits.maxBytes;
      var remaining := |sorted|;
      var i := 0;
      assert sorted[0..] == sorted && Without(start, sorted[..0]) == start;
      while i < |sorted| && !(start[sorted[i]].modified > now - limits.retention
                              && total <= limits.totalBytes && remaining <= limits.backups)
        invariant 0 <= i <= |sorted| && remaining == |sorted| - i
        invariant total == SizeOf(start, sorted[i..]) + limits.maxBytes
        invariant Doomed(limits, start, sorted, now) == i + Doomed(limits, start, sorted[i..], now)
        invariant archives == Without(start, sorted[..i])
        invariant deletions.Some? ==> i <= deletions.value
      {
        assert sorted[i..][0] == sorted[i] && sorted[i..][1..] == sorted[i + 1..];
        if deletions.Some? && deletions.value == i {
          return false;
        }
        total := total - start[sorted[i]].size;
        remaining := remaining - 1;
        archives := Without(start, sorted[..i + 1]);
        i := i + 1;
      }
      if i < |sorted| { assert sorted[i..][0] == sorted[i]; }
      ok := true;
    }

    method PruneArchives(now: Time, deletions: Option<nat>) returns (ok: bool, ghost order: seq<Name>)
      modifies this`archives, this`nextCleanup
      ensures SortedNames(old(archives), order) && forall n | n in order :: n in old(archives)
      ensures (State(), ok) == Prune(limits, old(State()), order, now, deletions)
    {
      var sorted := ListByAge();
      order := sorted;
      ok := DeleteOldest(sorted, now, deletions);
      if ok { nextCleanup := now + CLEANUP; }
    }

    /** Short writes go on where they stopped; an error leaves a torn tail behind. */
    method WriteBytes(record: Bytes, now: Time, writes: seq<int>) returns (complete: bool)
      modifies this`active
      ensures var (content, whole) := WriteAll(Segment(old(State())), record, writes);
              active == Some(File(content, now)) && complete == whole
    {
      var content := Segment(State());
      var rest, calls := record, writes;
      while rest != [] && calls != [] && calls[0] > 0
        invariant WriteAll(content, rest, calls) == WriteAll(Segment(old(State())), record, writes)
        decreases |rest|
      {
        var n := Min(calls[0], |rest|);
        content, rest, calls := content + rest[..n], rest[n..], calls[1..];
      }
      active := Some(File(content, now));
      complete := rest == [];
    }

    /** Write, and on an error undo; an undo that fails stays owed. */
    method WriteRecord(record: Bytes, now: Time, luck: Luck) returns (ok: bool)
      modifies this
      ensures (State(), ok) == Write(old(State()), record, now, luck)
    {
      var original := Segment(State());
      var complete := WriteBytes(record, now, luck.writes);
      if complete { return luck.stamped; }
      ok := false;
      rollback := Some(|original|);
      if luck.truncated {
        WritePrefix(original, record, luck.writes);
        assert active.value.content[..|original|] == original;
        active := Some(File(active.value.content[..|original|], now));
        rollback := None;
      }
    }

    /** Repair first, then rotate and prune when due, then write. */
    method AppendRecord(record: Bytes, now: Time, luck: Luck) returns (ok: bool, ghost sorted: seq<Name>)
      modifies this
      ensures SortedNames(Listed(limits, old(State()), record, now, luck), sorted)
      ensures forall n | n in sorted :: n in Listed(limits, old(State()), record, now, luck)
      ensures (State(), ok) == Append(limits, old(State()), record, now, luck, sorted)
    {
      if |record| > limits.maxBytes || record == [] {
        sorted := AnySorting(Listed(limits, State(), record, now, luck));
        return record == [], sorted;
      }
      ok, sorted := PrepareSegment(record, now, luck);
      if ok { ok := WriteRecord(record, now, luck); }
    }

    /** Cut the torn tail that an owed rollback names. */
    method RepairSegment(at: Time)
      modifies this`active, this`rollback
      ensures State() == Repair(old(State()), at)
    {
      if rollback.Some? && active.Some? && rollback.value <= |active.value.content| {
        active := Some(File(active.value.content[..rollback.value], at));
      }
      rollback := None;
    }

    method PrepareSegment(record: Bytes, now: Time, luck: Luck) returns (ok: bool, ghost sorted: seq<Name>)
      modifies this
      ensures SortedNames(Listed(limits, old(State()), record, now, luck), sorted)
      ensures forall n | n in sorted :: n in Listed(limits, old(State()), record, now, luck)
      ensures (State(), ok) == Prepare(limits, old(State()), record, now, luck, sorted)
    {
      sorted := AnySorting(Listed(limits, State(), record, now, luck));
      if rollback.Some? && !luck.repaired { return false, sorted; }
      RepairSegment(luck.touched);
      var turned := NeedsRotation(limits, State(), record, now);
      if turned {
        ok := RotateSegment(luck);
        if !ok { return; }
      }
      ok := true;
      if turned || now >= nextCleanup { ok, sorted := PruneArchives(now, luck.deletions); }
    }
  }

  lemma AnySorting(archives: map<Name, Archive>) returns (sorted: seq<Name>)
    ensures SortedNames(archives, sorted) && forall n | n in sorted :: n in archives
  {
    sorted := TopExists(Ages(archives), |archives|);
    SortedByAge(archives, sorted);
  }
}
