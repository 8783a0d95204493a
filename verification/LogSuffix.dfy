/** What a rolling log retains: read from the oldest archive to the segment, the end of everything
    ever written whole. */
module LogSuffix {
  import opened Basics
  import opened Ranking
  import opened LogTables
  import opened LogRetention
  import opened LogRun

  // ---------------------------------------------------------------- the order of archives

  /** The age order: by time, and at equal times by name. */
  predicate Older(archives: map<Name, Archive>, n: Name, o: Name)
    requires n in archives && o in archives
  {
    archives[n].modified < archives[o].modified || (archives[n].modified == archives[o].modified && n < o)
  }

  ghost predicate Sorting(archives: map<Name, Archive>, s: seq<Name>) {
    && (forall n :: n in s <==> n in archives)
    && forall i, j | 0 <= i < j < |s| :: Older(archives, s[i], s[j])
  }

  /** The order pruning uses is the age order, */
  lemma SortedIsSorting(archives: map<Name, Archive>, s: seq<Name>)
    requires SortedNames(archives, s)
    ensures Sorting(archives, s)
  {
    SortedByAge(archives, s);
    forall i, j | 0 <= i < j < |s| ensures Older(archives, s[i], s[j]) {
      assert !Less(Ages(archives)[s[j]], Ages(archives)[s[i]]) && s[i] != s[j];
    }
  }

  lemma SortingIsSorted(archives: map<Name, Archive>, s: seq<Name>)
    requires Sorting(archives, s)
    ensures SortedNames(archives, s)
  {
    SortingDistinct(archives, s);
    SortedLength(archives, s);
    assert Ages(archives).Keys == archives.Keys;
    assert |Ages(archives)| == |archives.Keys| == |archives|;
  }

  lemma SortingDistinct(archives: map<Name, Archive>, s: seq<Name>)
    requires Sorting(archives, s)
    ensures Distinct(s)
  {
    forall i, j | 0 <= i < j < |s| ensures s[i] != s[j] {
      assert Older(archives, s[i], s[j]);
    }
  }

  /** and there is only one. */
  lemma {:induction false} SortingUnique(archives: map<Name, Archive>, s: seq<Name>, t: seq<Name>)
    requires Sorting(archives, s) && Sorting(archives, t)
    ensures s == t
    decreases |s|
  {
    if s == [] {
      if t != [] { NotIn(t); }
    } else {
      assert s[|s| - 1] in archives;
      var n, m := s[|s| - 1], t[|t| - 1];
      LastIsNewest(archives, s, m);
      LastIsNewest(archives, t, n);
      SortingFront(archives, s);
      SortingFront(archives, t);
      SortingUnique(archives - {n}, s[..|s| - 1], t[..|t| - 1]);
      assert s == s[..|s| - 1] + [n] && t == t[..|t| - 1] + [m];
    }
  }

  lemma NotIn(t: seq<Name>)
    requires t != []
    ensures exists n :: n in t
  {
    assert t[0] in t;
  }

  lemma LastIsNewest(archives: map<Name, Archive>, s: seq<Name>, m: Name)
    requires Sorting(archives, s) && m in archives
    ensures s != [] && (m == s[|s| - 1] || Older(archives, m, s[|s| - 1]))
  {
    var i :| 0 <= i < |s| && s[i] == m;
  }

  lemma SortingFront(archives: map<Name, Archive>, s: seq<Name>)
    requires Sorting(archives, s) && s != []
    ensures Sorting(archives - {s[|s| - 1]}, s[..|s| - 1])
  {
    var k := |s| - 1;
    forall n ensures n in s[..k] <==> n in archives - {s[k]} {
      if n in archives && n != s[k] {
        var i :| 0 <= i < |s| && s[i] == n;
        assert s[..k][i] == n;
      }
      if n in s[..k] {
        var i :| 0 <= i < k && s[i] == n;
        assert Older(archives, s[i], s[k]);
      }
    }
  }

  lemma SortingDrop(archives: map<Name, Archive>, s: seq<Name>, k: nat)
    requires Sorting(archives, s) && k <= |s|
    ensures Sorting(Without(archives, s[..k]), s[k..])
  {
    SortingDistinct(archives, s);
    KeptNames(archives, s, k);
    var kept, left := Without(archives, s[..k]), s[k..];
    forall i, j | 0 <= i < j < |left| ensures Older(kept, left[i], left[j]) {
      assert left[i] == s[k + i] && left[j] == s[k + j];
      assert left[i] in left && left[j] in left;
    }
  }

  /** A new archive of that time sorts behind all that are there. */
  predicate RanksLast(archives: map<Name, Archive>, name: Name, modified: Time) {
    && name !in archives
    && forall n | n in archives :: archives[n].modified < modified || (archives[n].modified == modified && n < name)
  }

  /** Exactly then does the age order go on with it. */
  lemma SortingAppend(archives: map<Name, Archive>, s: seq<Name>, name: Name, a: Archive)
    requires Sorting(archives, s)
    ensures Sorting(archives[name := a], s + [name]) <==> RanksLast(archives, name, a.modified)
  {
    var more, longer := archives[name := a], s + [name];
    if RanksLast(archives, name, a.modified) {
      forall i, j | 0 <= i < j < |longer| ensures Older(more, longer[i], longer[j]) {
        assert longer[i] in s;
        if j < |s| { assert longer[j] in s && Older(archives, s[i], s[j]); }
      }
    }
    if Sorting(more, longer) {
      forall n | n in archives ensures n != name && Older(more, n, name) {
        var i :| 0 <= i < |s| && s[i] == n;
        assert longer[i] == n && longer[|s|] == name;
      }
    }
  }

  /** So a turn and the pruning of its k oldest leave the end of the making order, in that order,
      exactly when the new archive ranks last or nothing is left. */
  lemma TurnKeepsOrderIff(archives: map<Name, Archive>, order: seq<Name>, name: Name, a: Archive, sorted: seq<Name>,
                          k: nat)
    requires Sorting(archives, order) && name !in archives && SortedNames(archives[name := a], sorted) && k <= |sorted|
    ensures |sorted| == |order| + 1
    ensures sorted[k..] == (order + [name])[k..] <==> RanksLast(archives, name, a.modified) || k == |sorted|
  {
    var more, made := archives[name := a], order + [name];
    SortedIsSorting(more, sorted);
    SortedLength(archives, order);
    SortedLength(more, sorted);
    SortingAppend(archives, order, name, a);
    if RanksLast(archives, name, a.modified) {
      SortingUnique(more, sorted, made);
    }
    if k < |sorted| && sorted[k..] == made[k..] {
      assert sorted[k..][|sorted| - 1 - k] == made[k..][|sorted| - 1 - k] == name;
      LastRanksLast(archives, name, a, sorted);
    }
  }

  lemma LastRanksLast(archives: map<Name, Archive>, name: Name, a: Archive, sorted: seq<Name>)
    requires name !in archives && Sorting(archives[name := a], sorted)
    requires sorted != [] && sorted[|sorted| - 1] == name
    ensures RanksLast(archives, name, a.modified)
  {
    var more := archives[name := a];
    forall n | n in archives ensures Older(more, n, name) {
      assert n in more;
      var i :| 0 <= i < |sorted| && sorted[i] == n;
    }
  }

  lemma SortedLength(archives: map<Name, Archive>, s: seq<Name>)
    requires Sorting(archives, s)
    ensures |s| == |archives|
  {
    SortingDistinct(archives, s);
    SizeIsTotal(archives, s);
  }

  /** Otherwise, under a new name, it sorts before an archive that was there: whenever pruning removes
      that older one, it has removed the newer one. */
  lemma OutOfOrderGoesFirst(archives: map<Name, Archive>, name: Name, a: Archive, sorted: seq<Name>)
    returns (older: Name)
    requires name !in archives && !RanksLast(archives, name, a.modified)
    requires SortedNames(archives[name := a], sorted)
    ensures older in archives
    ensures forall k | 0 <= k <= |sorted| && older in sorted[..k] :: name in sorted[..k]
  {
    var more := archives[name := a];
    SortedIsSorting(more, sorted);
    older :| older in archives && !(archives[older].modified < a.modified
                                    || (archives[older].modified == a.modified && older < name));
    assert name in more && older in more;
    var i :| 0 <= i < |sorted| && sorted[i] == name;
    forall k | 0 <= k <= |sorted| && older in sorted[..k] ensures name in sorted[..k] {
      var m :| 0 <= m < k && sorted[m] == older;
      assert i < m;
      assert sorted[..k][i] == name;
    }
  }

  function Records(archived: map<Name, seq<Bytes>>, s: seq<Name>): seq<Bytes>
    requires forall n | n in s :: n in archived
  {
    if s == [] then [] else Records(archived, s[..|s| - 1]) + archived[s[|s| - 1]]
  }

  ghost predicate Suffix(a: seq<Bytes>, h: seq<Bytes>) {
    |a| <= |h| && h[|h| - |a|..] == a
  }

  lemma SuffixOf(front: seq<Bytes>, a: seq<Bytes>, h: seq<Bytes>)
    requires Suffix(front + a, h)
    ensures Suffix(a, h)
  {
    assert h[|h| - |front + a|..][|front|..] == a;
  }

  lemma SuffixMore(a: seq<Bytes>, h: seq<Bytes>, r: Bytes)
    requires Suffix(a, h)
    ensures Suffix(a + [r], h + [r])
  {
  }

  lemma {:induction false} RecordsFrame(a: map<Name, seq<Bytes>>, b: map<Name, seq<Bytes>>, s: seq<Name>)
    requires forall n | n in s :: n in a && n in b && a[n] == b[n]
    ensures Records(a, s) == Records(b, s)
    decreases |s|
  {
    if s != [] { RecordsFrame(a, b, s[..|s| - 1]); }
  }

  lemma {:induction false} RecordsJoin(archived: map<Name, seq<Bytes>>, a: seq<Name>, b: seq<Name>)
    requires (forall n | n in a :: n in archived) && forall n | n in b :: n in archived
    ensures Records(archived, a + b) == Records(archived, a) + Records(archived, b)
    decreases |b|
  {
    if b == [] {
      assert a + b == a;
    } else {
      var n := |b| - 1;
      RecordsJoin(archived, a, b[..n]);
      assert (a + b)[..|a + b| - 1] == a + b[..n];
    }
  }

  lemma RecordsSplit(archived: map<Name, seq<Bytes>>, s: seq<Name>, k: nat)
    requires k <= |s| && forall n | n in s :: n in archived
    ensures Records(archived, s) == Records(archived, s[..k]) + Records(archived, s[k..])
  {
    assert s == s[..k] + s[k..];
    RecordsJoin(archived, s[..k], s[k..]);
  }

  /** The state between appends: what the archives in their age order and the segment hold is the end
      of the history. */
  ghost predicate Retained(archives: map<Name, Archive>, archived: map<Name, seq<Bytes>>, s: seq<Name>,
                           active: seq<Bytes>, history: seq<Bytes>) {
    && Sorting(archives, s) && archives.Keys <= archived.Keys
    && Suffix(Records(archived, s) + active, history)
    && forall n | n in archives :: archives[n].content == Flat(archived[n])
  }

  lemma PruneRetains(archives: map<Name, Archive>, archived: map<Name, seq<Bytes>>, s: seq<Name>, k: nat,
                     active: seq<Bytes>, history: seq<Bytes>)
    requires Retained(archives, archived, s, active, history) && k <= |s|
    ensures Retained(Without(archives, s[..k]), archived, s[k..], active, history)
  {
    SortingDrop(archives, s, k);
    RecordsSplit(archived, s, k);
    assert Records(archived, s) + active == Records(archived, s[..k]) + (Records(archived, s[k..]) + active);
    SuffixOf(Records(archived, s[..k]), Records(archived, s[k..]) + active, history);
  }

  lemma TurnRecords(archived: map<Name, seq<Bytes>>, s: seq<Name>, name: Name, active: seq<Bytes>)
    requires name !in s && forall n | n in s :: n in archived
    ensures Records(archived[name := active], s + [name]) == Records(archived, s) + active
  {
    var more := archived[name := active];
    RecordsFrame(archived, more, s);
    assert (s + [name])[..|s + [name]| - 1] == s;
  }

  lemma TurnContents(archives: map<Name, Archive>, archived: map<Name, seq<Bytes>>, name: Name, a: Archive,
                     active: seq<Bytes>)
    requires archives.Keys <= archived.Keys && forall n | n in archives :: archives[n].content == Flat(archived[n])
    requires a.content == Flat(active)
    ensures var next, more := archives[name := a], archived[name := active];
            next.Keys <= more.Keys && forall n | n in next :: next[n].content == Flat(more[n])
  {
  }

  lemma TurnRetains(archives: map<Name, Archive>, archived: map<Name, seq<Bytes>>, s: seq<Name>, active: seq<Bytes>,
                    history: seq<Bytes>, name: Name, a: Archive)
    requires Retained(archives, archived, s, active, history) && a.content == Flat(active)
    requires RanksLast(archives, name, a.modified)
    ensures Retained(archives[name := a], archived[name := active], s + [name], [], history)
  {
    SortingAppend(archives, s, name, a);
    TurnContents(archives, archived, name, a, active);
    TurnRecords(archived, s, name, active);
    var all := Records(archived, s) + active;
    assert all + [] == all;
  }

  /** A segment that becomes an archive ranks last among them, or all go at once; and no crash tears
      a segment. */
  ghost predicate InOrder(l: Limits, s: System, e: Event)
    requires Enabled(l, s, e)
  {
    && CrashesWhole(s, e)
    && (e.AppendRecord? && Turns(l, s, e.record, e.now, e.luck) ==>
          || RanksLast(s.log.archives, e.luck.name, Repair(s.log, e.luck.touched).active.value.modified)
          || Doomed(l, Listed(l, s.log, e.record, e.now, e.luck), e.sorted, e.now) == |e.sorted|)
  }

  ghost predicate RetainInv(s: System, order: seq<Name>) {
    && Retained(s.log.archives, s.archived, order, s.active, s.history) && WholeRecords(s.log, s.active)
    && (s.log.active.None? ==> s.active == [])
  }

  /** What any directory holds is such a state: each of its files taken for one record. */
  lemma AnyDirectory(log: Log, now: Time, sorted: seq<Name>) returns (s: System)
    requires log.rollback.None? && log.nextCleanup == 0.0 && SortedNames(log.archives, sorted)
    ensures s.log == log && s.now == now && Opened(s) && RetainInv(s, sorted)
  {
    var archived := map n | n in log.archives :: [log.archives[n].content];
    var active := if log.active.None? then [] else [log.active.value.content];
    SortedIsSorting(log.archives, sorted);
    forall c: Bytes ensures Flat([c]) == c { OneRecord(c); }
    s := System(log, now, active, archived, Records(archived, sorted) + active);
  }

  lemma OneRecord(c: Bytes)
    ensures Flat([c]) == c
  {
    assert [c][..0] == [];
    assert Flat([]) + c == c;
  }

  lemma PruneOnce(l: Limits, archives: map<Name, Archive>, archived: map<Name, seq<Bytes>>, order: seq<Name>,
                  active: seq<Bytes>, history: seq<Bytes>, sorted: seq<Name>, now: Time) returns (left: seq<Name>)
    requires Retained(archives, archived, order, active, history) && SortedNames(archives, sorted)
    requires forall n | n in sorted :: n in archives
    ensures Retained(Without(archives, sorted[..Doomed(l, archives, sorted, now)]), archived, left, active, history)
  {
    SortedIsSorting(archives, sorted);
    SortingUnique(archives, sorted, order);
    var k := Doomed(l, archives, sorted, now);
    PruneRetains(archives, archived, order, k, active, history);
    left := order[k..];
  }

  /** Rotation, then pruning. */
  lemma TurningReady(l: Limits, s: System, order: seq<Name>, record: Bytes, now: Time, luck: Luck, sorted: seq<Name>)
    returns (left: seq<Name>)
    requires RetainInv(s, order) && Enabled(l, s, AppendRecord(record, now, luck, sorted))
    requires InOrder(l, s, AppendRecord(record, now, luck, sorted))
    requires Turns(l, s, record, now, luck) && luck.rotation.Rotated? && luck.deletions.None?
    ensures var (ready, ok) := Prepare(l, s.log, record, now, luck, sorted);
            && ok && ready.active.None?
            && Retained(ready.archives, s.archived[luck.name := s.active], left, [], s.history)
  {
    var whole := Repair(s.log, luck.touched);
    RepairWhole(s.log, s.active, luck.touched);
    left := TurnedReady(l, whole, s.archived, order, s.active, s.history, luck, sorted, now);
  }

  lemma TurnedReady(l: Limits, log: Log, archived: map<Name, seq<Bytes>>, order: seq<Name>, active: seq<Bytes>,
                    history: seq<Bytes>, luck: Luck, sorted: seq<Name>, now: Time)
    returns (left: seq<Name>)
    requires Retained(log.archives, archived, order, active, history)
    requires log.active.Some? && log.active.value.content == Flat(active)
    requires SortedNames(Archived(log, luck), sorted) && forall n | n in sorted :: n in Archived(log, luck)
    requires RanksLast(log.archives, luck.name, log.active.value.modified)
             || Doomed(l, Archived(log, luck), sorted, now) == |sorted|
    ensures var turned := Archived(log, luck);
            Retained(Without(turned, sorted[..Doomed(l, turned, sorted, now)]), archived[luck.name := active], left, [],
                     history)
  {
    var turned, more := Archived(log, luck), archived[luck.name := active];
    if RanksLast(log.archives, luck.name, log.active.value.modified) {
      TurnRetains(log.archives, archived, order, active, history, luck.name, turned[luck.name]);
      left := PruneOnce(l, turned, more, order + [luck.name], [], history, sorted, now);
    } else {
      left := [];
      NothingLeft(turned, more, sorted, history);
    }
  }

  lemma NothingLeft(archives: map<Name, Archive>, archived: map<Name, seq<Bytes>>, sorted: seq<Name>,
                    history: seq<Bytes>)
    requires SortedNames(archives, sorted)
    ensures Retained(Without(archives, sorted[..|sorted|]), archived, [], [], history)
  {
    SortedByAge(archives, sorted);
    assert sorted[..|sorted|] == sorted;
    assert Without(archives, sorted).Keys == {};
  }

  /** Without rotation the preparation leaves the archives, or the pruned archives. */
  lemma StayingShape(l: Limits, s: System, record: Bytes, now: Time, luck: Luck, sorted: seq<Name>)
    requires !Turns(l, s, record, now, luck) && Accepts(l, record) && DeletionsSucceed(luck)
    requires forall n | n in sorted :: n in Listed(l, s.log, record, now, luck)
    ensures var ready := Prepare(l, s.log, record, now, luck, sorted).0;
            && (ready.active.None? <==> s.log.active.None?)
            && (|| ready.archives == s.log.archives
                || (Listed(l, s.log, record, now, luck) == s.log.archives
                    && ready.archives
                       == Without(s.log.archives, sorted[..Doomed(l, s.log.archives, sorted, now)])))
  {
  }

  lemma StayingReady(l: Limits, s: System, order: seq<Name>, record: Bytes, now: Time, luck: Luck, sorted: seq<Name>)
    returns (left: seq<Name>)
    requires RetainInv(s, order) && !Turns(l, s, record, now, luck) && Accepts(l, record) && DeletionsSucceed(luck)
    requires SortedNames(Listed(l, s.log, record, now, luck), sorted)
    requires forall n | n in sorted :: n in Listed(l, s.log, record, now, luck)
    ensures var ready := Prepare(l, s.log, record, now, luck, sorted).0;
            && Retained(ready.archives, s.archived, left, s.active, s.history)
            && (ready.active.None? ==> s.active == [])
  {
    StayingShape(l, s, record, now, luck, sorted);
    left := order;
    if Prepare(l, s.log, record, now, luck, sorted).0.archives != s.log.archives {
      left := PruneOnce(l, s.log.archives, s.archived, order, s.active, s.history, sorted, now);
    }
  }

  /** A write keeps the retained suffix: its record is added to both ends only when whole. */
  lemma WriteRetains(l: Limits, ready: Log, archived: map<Name, seq<Bytes>>, left: seq<Name>, active: seq<Bytes>,
                     history: seq<Bytes>, record: Bytes, now: Time, luck: Luck)
    requires Retained(ready.archives, archived, left, active, history)
    ensures var next := Write(ready, record, now, luck).0;
            var complete := WriteAll(Segment(ready), record, luck.writes).1;
            Retained(next.archives, archived, left, if complete then active + [record] else active,
                     if complete then history + [record] else history)
  {
    var front := Records(archived, left) + active;
    SuffixMore(front, history, record);
    assert front + [record] == Records(archived, left) + (active + [record]);
  }

  lemma AppendRetains(l: Limits, s: System, e: Event, order: seq<Name>) returns (left: seq<Name>)
    requires RetainInv(s, order) && e.AppendRecord? && Enabled(l, s, e) && InOrder(l, s, e) && Clean(e)
    requires Accepts(l, e.record)
    ensures var next := Step(l, s, e); Retained(next.log.archives, next.archived, left, next.active, next.history)
  {
    var (ready, ok) := Prepare(l, s.log, e.record, e.now, e.luck, e.sorted);
    if Turns(l, s, e.record, e.now, e.luck) {
      left := TurningReady(l, s, order, e.record, e.now, e.luck, e.sorted);
      WriteRetains(l, ready, s.archived[e.luck.name := s.active], left, [], s.history, e.record, e.now, e.luck);
    } else {
      left := StayingReady(l, s, order, e.record, e.now, e.luck, e.sorted);
      var active := if ready.active.None? then [] else s.active;
      WriteRetains(l, ready, s.archived, left, active, s.history, e.record, e.now, e.luck);
    }
  }

  lemma StepRetains(l: Limits, s: System, e: Event, order: seq<Name>) returns (left: seq<Name>)
    requires RetainInv(s, order) && Enabled(l, s, e) && InOrder(l, s, e) && Clean(e)
    ensures RetainInv(Step(l, s, e), left)
  {
    left := order;
    StepWhole(l, s, e);
    if e.AppendRecord? && Accepts(l, e.record) { left := AppendRetains(l, s, e, order); }
  }

  lemma {:induction false} AlwaysRetained(l: Limits, states: seq<System>, events: seq<Event>, n: nat, first: seq<Name>)
    returns (order: seq<Name>)
    requires Run(l, states, events) && n < |states| && RetainInv(states[0], first)
    requires forall i | 0 <= i < n :: Clean(events[i]) && InOrder(l, states[i], events[i])
    ensures RetainInv(states[n], order)
  {
    if n == 0 {
      order := first;
    } else {
      order := AlwaysRetained(l, states, events, n - 1, first);
      order := StepRetains(l, states[n - 1], events[n - 1], order);
    }
  }

  /** While deletions succeed and archives stay in the order of their making, what is on disk, read
      from the oldest archive to the segment, is the end of everything ever written whole: rotation
      loses nothing, pruning only the oldest. */
  lemma RetainedIsSuffix(l: Limits, states: seq<System>, events: seq<Event>, n: nat, sorted: seq<Name>,
                         first: seq<Name>)
    requires Run(l, states, events) && n < |states| && RetainInv(states[0], first)
    requires forall i | 0 <= i < n :: Clean(events[i]) && InOrder(l, states[i], events[i])
    requires SortedNames(states[n].log.archives, sorted)
    ensures var s := states[n];
            && (forall name | name in sorted :: name in s.log.archives && name in s.archived
                                                && s.log.archives[name].content == Flat(s.archived[name]))
            && Suffix(Records(s.archived, sorted) + s.active, s.history)
            && (s.log.rollback.None? ==> Segment(s.log) == Flat(s.active))
  {
    var order := AlwaysRetained(l, states, events, n, first);
    SortedIsSorting(states[n].log.archives, sorted);
    SortingUnique(states[n].log.archives, sorted, order);
  }

  // ---------------------------------------------------------------- a run out of order

  /** What each append of this run meets: every operation succeeds. */
  function Smoothly(now: Time, name: Name, size: nat, record: Bytes): Luck {
    Luck(true, now, Rotated, name, size, None, [|record|], true, true)
  }

  /** A record that fills a segment by itself. */
  predicate Fills(l: Limits, record: Bytes) {
    0 < |record| == l.maxBytes
  }

  /** Three full segments within one clock reading, where one archive may stay and the second gets the
      smaller name: the first record is kept, the second pruned. */
  lemma EqualReadingsLoseNewer(l: Limits, a: Bytes, b: Bytes, c: Bytes, now: Time, size: nat, high: Name, low: Name)
    returns (states: seq<System>, events: seq<Event>)
    requires ValidLimits(l) && l.backups == 1 && size + l.maxBytes <= l.totalBytes && now >= 0.0 && low < high
    requires Fills(l, a) && Fills(l, b) && Fills(l, c) && a != b
    ensures SmoothRun(l, states, events, now) && RetainInv(states[0], []) && |events| == 3
    ensures var s := states[3];
            && s.history == [a, b, c] && SortedNames(s.log.archives, [high])
            && high in s.archived && s.archived[high] == [a] && s.active == [c]
            && !Suffix(Records(s.archived, [high]) + s.active, s.history)
  {
    var start := System(Log(None, map[], None, 0.0), now, [], map[], []);
    states, events := FullRun(l, start, a, b, c, now, size, high, low);
    MiddleMissing(states[3].archived, high, a, b, c);
    SortingIsSorted(start.log.archives, []);
  }

  lemma FullRun(l: Limits, start: System, a: Bytes, b: Bytes, c: Bytes, now: Time, size: nat, high: Name, low: Name)
    returns (states: seq<System>, events: seq<Event>)
    requires ValidLimits(l) && l.backups == 1 && size + l.maxBytes <= l.totalBytes && now >= 0.0 && low < high
    requires Fills(l, a) && Fills(l, b) && Fills(l, c) && start.log.archives == map[] && start.log.nextCleanup == 0.0
    requires start.log.active.None? && start.log.rollback.None? && start.active == start.history == []
    ensures SmoothRun(l, states, events, now) && |events| == 3 && states[0] == start
    ensures var s := states[3];
            && s.history == [a, b, c] && SortedNames(s.log.archives, [high])
            && high in s.archived && s.archived[high] == [a] && s.active == [c]
  {
    var e, next := FirstFull(l, start, a, now);
    states, events := SmoothMore(l, [start], [], now, e, next);
    states, events := SecondMore(l, states, events, b, now, high, size);
    states, events := ThirdMore(l, states, events, c, now, high, low, size);
  }

  lemma SecondMore(l: Limits, states: seq<System>, events: seq<Event>, b: Bytes, now: Time, high: Name, size: nat)
    returns (longer: seq<System>, more: seq<Event>)
    requires SmoothRun(l, states, events, now) && Fills(l, b) && size + l.maxBytes <= l.totalBytes
    requires var s := states[|events|];
             && s.log.active.Some? && s.log.rollback.None? && s.log.archives == map[]
             && s.log.active.value.modified == now >= 0.0 && Fills(l, s.log.active.value.content)
    ensures SmoothRun(l, longer, more, now) && |more| == |events| + 1 && longer[0] == states[0]
    ensures var s, t := states[|events|], longer[|more|];
            && t.log.active == Some(File(b, now)) && t.log.rollback.None?
            && t.log.archives.Keys == {high} && t.log.archives[high].modified == now
            && t.log.archives[high].size == size
            && t.active == [b] && t.history == s.history + [b] && t.archived == s.archived[high := s.active]
  {
    var e, next := SecondFull(l, states[|events|], b, now, high, size);
    longer, more := SmoothMore(l, states, events, now, e, next);
  }

  lemma ThirdMore(l: Limits, states: seq<System>, events: seq<Event>, c: Bytes, now: Time, high: Name, low: Name,
                  size: nat)
    returns (longer: seq<System>, more: seq<Event>)
    requires SmoothRun(l, states, events, now) && Fills(l, c) && l.backups == 1 && size + l.maxBytes <= l.totalBytes
    requires var s := states[|events|];
             && s.log.active.Some? && s.log.rollback.None? && s.log.archives.Keys == {high} && low < high
             && s.log.active.value.modified == now >= 0.0 && Fills(l, s.log.active.value.content)
             && s.log.archives[high].modified == now && s.log.archives[high].size == size
    ensures SmoothRun(l, longer, more, now) && |more| == |events| + 1 && longer[0] == states[0]
    ensures var s, t := states[|events|], longer[|more|];
            && t.active == [c] && t.history == s.history + [c] && t.archived == s.archived[low := s.active]
            && SortedNames(t.log.archives, [high])
  {
    var e, next := ThirdFull(l, states[|events|], c, now, high, low, size);
    longer, more := SmoothMore(l, states, events, now, e, next);
  }

  /** A run of appends at one reading, in which every deletion succeeds. */
  ghost predicate SmoothRun(l: Limits, states: seq<System>, events: seq<Event>, now: Time) {
    && Run(l, states, events)
    && forall i | 0 <= i < |events| :: Clean(events[i]) && events[i].AppendRecord? && events[i].now == now
  }

  lemma SmoothMore(l: Limits, states: seq<System>, events: seq<Event>, now: Time, e: Event, next: System)
    returns (longer: seq<System>, more: seq<Event>)
    requires SmoothRun(l, states, events, now) && Clean(e) && e.AppendRecord? && e.now == now
    requires Enabled(l, states[|events|], e) && next == Step(l, states[|events|], e)
    ensures SmoothRun(l, longer, more, now) && longer == states + [next] && more == events + [e]
  {
    longer, more := states + [next], events + [e];
    RunMore(l, states, events, e, next);
  }

  /** One more step of a run. */
  lemma RunMore(l: Limits, states: seq<System>, events: seq<Event>, e: Event, next: System)
    requires Run(l, states, events)
    requires Enabled(l, states[|events|], e) && next == Step(l, states[|events|], e)
    ensures Run(l, states + [next], events + [e])
  {
    var longer, more := states + [next], events + [e];
    forall i | 0 <= i < |more|
      ensures Enabled(l, longer[i], more[i]) && longer[i + 1] == Step(l, longer[i], more[i])
    {
      if i < |events| {
        assert longer[i] == states[i] && longer[i + 1] == states[i + 1] && more[i] == events[i];
      } else {
        assert longer[i] == states[|events|] && longer[i + 1] == next && more[i] == e;
      }
    }
  }

  lemma MiddleMissing(archived: map<Name, seq<Bytes>>, high: Name, a: Bytes, b: Bytes, c: Bytes)
    requires high in archived && archived[high] == [a] && a != b
    ensures !Suffix(Records(archived, [high]) + [c], [a, b, c])
  {
    assert Records(archived, [high]) == Records(archived, [high][..0]) + [a];
    var left := Records(archived, [high]) + [c];
    assert left == [a, c];
    assert [a, b, c][1..][0] == b;
  }

  lemma WrittenWhole(content: Bytes, record: Bytes)
    requires record != []
    ensures WriteAll(content, record, [|record|]) == (content + record, true)
  {
    assert record[..|record|] == record && record[|record|..] == [];
  }

  lemma FirstFull(l: Limits, s: System, a: Bytes, now: Time) returns (e: Event, next: System)
    requires s.log.active.None? && s.log.rollback.None? && s.log.archives == map[] && s.active == s.history == []
    requires Fills(l, a) && now >= 0.0
    ensures e.AppendRecord? && e.now == now && Clean(e) && Enabled(l, s, e) && next == Step(l, s, e)
    ensures next.log.active == Some(File(a, now)) && next.log.rollback.None? && next.log.archives == map[]
    ensures next.active == next.history == [a] && next.archived == s.archived
  {
    e := AppendRecord(a, now, Smoothly(now, 0, 1, a), []);
    NoneListed(s.log.archives);
    WrittenWhole([], a);
    assert [] + a == a;
    next := Step(l, s, e);
    assert Doomed(l, s.log.archives, [], now) == 0;
    assert next.log.archives.Keys == {};
  }

  /** A record behind a full segment of the same reading: the segment is archived, then pruned. */
  lemma FullTurn(l: Limits, s: System, record: Bytes, now: Time, luck: Luck, sorted: seq<Name>) returns (next: System)
    requires s.log.active.Some? && s.log.rollback.None? && s.log.active.value.modified == now
    requires Fills(l, record) && Fills(l, s.log.active.value.content) && now >= 0.0
    requires luck == Smoothly(now, luck.name, luck.size, record) && SortedNames(Archived(s.log, luck), sorted)
    requires forall n | n in sorted :: n in Archived(s.log, luck)
    ensures var e := AppendRecord(record, now, luck, sorted);
            Clean(e) && Enabled(l, s, e) && next == Step(l, s, e)
    ensures var turned := Archived(s.log, luck);
            next.log.archives == Without(turned, sorted[..Doomed(l, turned, sorted, now)])
    ensures next.log.active == Some(File(record, now)) && next.log.rollback.None?
    ensures next.active == [record] && next.history == s.history + [record]
    ensures next.archived == s.archived[luck.name := s.active]
  {
    assert Repair(s.log, luck.touched) == s.log;
    assert NeedsRotation(l, s.log, record, now);
    WrittenWhole([], record);
    assert [] + record == record && [] + [record] == [record];
    next := Step(l, s, AppendRecord(record, now, luck, sorted));
  }

  lemma SecondFull(l: Limits, s: System, b: Bytes, now: Time, high: Name, size: nat) returns (e: Event, next: System)
    requires s.log.active.Some? && s.log.rollback.None? && s.log.archives == map[]
    requires s.log.active.value.modified == now >= 0.0 && Fills(l, b) && Fills(l, s.log.active.value.content)
    requires ValidLimits(l) && size + l.maxBytes <= l.totalBytes
    ensures e.AppendRecord? && e.now == now && Clean(e) && Enabled(l, s, e) && next == Step(l, s, e)
    ensures next.log.active == Some(File(b, now)) && next.log.rollback.None?
    ensures next.log.archives.Keys == {high} && next.log.archives[high].modified == now
    ensures next.log.archives[high].size == size
    ensures next.active == [b] && next.history == s.history + [b] && next.archived == s.archived[high := s.active]
  {
    var luck := Smoothly(now, high, size, b);
    var turned := Archived(s.log, luck);
    SortingIsSorted(turned, [high]);
    assert SizeOf(turned, [high]) == size + SizeOf(turned, [high][1..]);
    assert Enough(l, turned, [high], now);
    e := AppendRecord(b, now, luck, [high]);
    next := FullTurn(l, s, b, now, luck, [high]);
    assert Doomed(l, turned, [high], now) == 0 && [high][..0] == [];
  }

  lemma ThirdFull(l: Limits, s: System, c: Bytes, now: Time, high: Name, low: Name, size: nat)
    returns (e: Event, next: System)
    requires s.log.active.Some? && s.log.rollback.None? && s.log.archives.Keys == {high} && low < high
    requires s.log.active.value.modified == now >= 0.0 && Fills(l, c) && Fills(l, s.log.active.value.content)
    requires s.log.archives[high].modified == now && s.log.archives[high].size == size
    requires ValidLimits(l) && l.backups == 1 && size + l.maxBytes <= l.totalBytes
    ensures e.AppendRecord? && e.now == now && Clean(e) && Enabled(l, s, e) && next == Step(l, s, e)
    ensures next.active == [c] && next.history == s.history + [c] && next.archived == s.archived[low := s.active]
    ensures SortedNames(next.log.archives, [high])
  {
    var luck := Smoothly(now, low, size, c);
    var turned, names := Archived(s.log, luck), [low, high];
    SortingIsSorted(turned, names);
    LowIsDoomed(l, turned, now, high, low);
    e := AppendRecord(c, now, luck, names);
    next := FullTurn(l, s, c, now, luck, names);
    SortingIsSorted(next.log.archives, [high]);
  }

  /** Of two archives where one may stay, the first in order goes. */
  lemma LowIsDoomed(l: Limits, archives: map<Name, Archive>, now: Time, high: Name, low: Name)
    requires archives.Keys == {low, high} && archives[high].modified == now && low != high
    requires ValidLimits(l) && l.backups == 1 && archives[high].size + l.maxBytes <= l.totalBytes
    ensures Doomed(l, archives, [low, high], now) == 1
    ensures Without(archives, [low, high][..1]).Keys == {high}
  {
    var names := [low, high];
    assert names[1..] == [high] && [high][1..] == [] && names[..1] == [low];
    assert SizeOf(archives, [high]) == archives[high].size + SizeOf(archives, []);
    assert Enough(l, archives, [high], now) && !Enough(l, archives, names, now);
  }
}
