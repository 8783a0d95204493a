/** Every history of a lane: its invariant, the end of each round, and honest coverage. */
module LaneRun {
  import opened Basics
  import opened LaneTables

  /** Messages carry the generation they were leased under. */
  datatype Event =
    | Start
    | Postpone
    | Stumble
    | RunDry
    | Stuck
    | Unusable(generation: nat)
    | SweepDone(generation: nat, limited: bool)
    | Selected(generation: nat, url: Url)
    | Discovered(generation: nat, cs: seq<Candidate>)
    | Pause
    | Disable
    | Recreate
    | NewRound(refresh: bool)
    | Restart(f: Fingerprint)
    | Reconfigure(f: Fingerprint)

  predicate Leased(lane: Lane, generation: nat) {
    lane.status.Scanning? && lane.cursor < |lane.targets| && generation == lane.generation
  }

  predicate RoundOver(lane: Lane) {
    lane.status.Whole? || lane.status.Partial?
  }

  predicate Enabled(lane: Lane, e: Event) {
    match e
    case Start => !RoundOver(lane) && lane.cursor < |lane.targets|
    case Postpone => !RoundOver(lane) && lane.cursor < |lane.targets|
    case Stumble => true
    // A round that an error put back behind its last target, or one without any target.
    case RunDry => !RoundOver(lane) && !lane.status.Disabled? && lane.cursor >= |lane.targets|
    case Stuck => lane.status.Scanning? && lane.cursor < |lane.targets|
    case Unusable(g) => Leased(lane, g)
    case SweepDone(g, _) => Leased(lane, g) && !lane.targets[lane.cursor].selection
    case Selected(g, _) => Leased(lane, g) && lane.targets[lane.cursor].selection
    case Discovered(g, _) => Leased(lane, g) && lane.fingerprint.Departments? && !lane.targets[lane.cursor].selection
    case Pause => !RoundOver(lane) && !lane.status.Paused?
    case Disable => !lane.status.Disabled?
    case Recreate => true
    // A finished round comes again when due; one that finished while disabled, on being enabled.
    case NewRound(refresh) => WillRestart(lane, refresh) || (lane.status.Disabled? && lane.cursor >= |lane.targets|)
    // By the user, at any time and under whatever is configured then.
    case Restart(_) => true
    case Reconfigure(f) => f != lane.fingerprint
  }

  /** The generation a target starts under: a new one after a pause. */
  function Resumed(lane: Lane): nat {
    if lane.status.Paused? || lane.status.Disabled? then lane.generation + 1 else lane.generation
  }

  function Step(lane: Lane, e: Event): Lane
    requires Enabled(lane, e)
  {
    match e
    case Start => Begun(lane).(status := Scanning, generation := Resumed(lane))
    case Postpone => lane.(status := Waiting, generation := Resumed(lane))
    case Stumble => lane.(status := Waiting, generation := lane.generation + 1)
    case RunDry => lane.(status := Partial)
    case Stuck => Fail(lane)
    case Unusable(_) => Fail(lane)
    case SweepDone(_, limited) => Advance(lane, if limited then Limited else Covered)
    case Selected(_, url) => Select(lane, url)
    case Discovered(_, cs) => Discover(lane, cs)
    case Pause => lane.(status := Paused, generation := lane.generation + 1)
    case Disable => lane.(status := Disabled, generation := lane.generation + 1)
    case Recreate => lane.(status := if lane.status.Scanning? then Waiting else lane.status,
                           generation := lane.generation + 1)
    case NewRound(_) => FreshLane(Some(lane), lane.fingerprint)
    case Restart(f) => FreshLane(Some(Interrupted(lane)), f)
    case Reconfigure(f) =>
      if Extends(lane.fingerprint, f) then AppendQueries(lane, f) else FreshLane(Some(lane), f)
  }

  /** A configured query list holds no query twice. */
  ghost predicate Normal(f: Fingerprint) {
    match f
    case Departments(_) => true
    case Queries(_, queries) => forall i, j | 0 <= i < j < |queries| :: queries[i] != queries[j]
  }

  ghost predicate EventOk(e: Event) {
    e.Reconfigure? || e.Restart? ==> Normal(e.f)
  }

  // ---------------------------------------------------------------- the invariant

  ghost predicate DistinctKeys(targets: seq<Target>) {
    forall i, j | 0 <= i < j < |targets| :: targets[i].key != targets[j].key
  }

  ghost predicate DistinctBounds(targets: seq<Target>) {
    forall i, j | 0 <= i < |targets| && 0 <= j < |targets| && i != j && targets[i].bound.Some? ::
      targets[i].bound != targets[j].bound
  }

  /** A bound target has been selected and is nobody's duplicate. */
  ghost predicate TargetOk(t: Target) {
    && (t.bound.Some? ==> !t.selection && !t.coverage.Duplicate?)
    && (t.duplicateOf.Some? <==> t.coverage.Duplicate?)
  }

  ghost predicate Represented(targets: seq<Target>, t: Target) {
    t.duplicateOf.Some? ==>
      exists r :: 0 <= r < |targets| && targets[r].key == t.duplicateOf.value && targets[r].bound.Some?
  }

  ghost predicate TargetsOk(targets: seq<Target>, cursor: nat) {
    && DistinctKeys(targets) && DistinctBounds(targets)
    && (forall i | 0 <= i < |targets| :: TargetOk(targets[i]) && Represented(targets, targets[i]))
    && (forall i | 0 <= i < |targets| && i < cursor :: !targets[i].coverage.Pending?)
    && (forall i | cursor <= i < |targets| ::
          (targets[i].coverage.Pending? || targets[i].coverage.Unresolved?) && targets[i].attempts <= RETRIES)
  }

  ghost predicate LaneOk(lane: Lane) {
    && lane.cursor <= |lane.targets| && TargetsOk(lane.targets, lane.cursor)
    && (RoundOver(lane) ==> lane.cursor == |lane.targets|)
    && (lane.status.Whole? ==> lane.truncated == 0 && !AnyUnresolved(lane.targets))
    && Normal(lane.fingerprint)
  }

  /** A change of the current target that keeps its key. */
  lemma PutOk(targets: seq<Target>, cursor: nat, i: nat, t: Target)
    requires TargetsOk(targets, cursor) && i < |targets| && t.key == targets[i].key
    requires TargetOk(t) && Represented(targets[i := t], t)
    requires t.bound == targets[i].bound
             || (targets[i].bound.None? && forall j | 0 <= j < |targets| && j != i :: targets[j].bound != t.bound)
    requires if i < cursor then !t.coverage.Pending?
             else (t.coverage.Pending? || t.coverage.Unresolved?) && t.attempts <= RETRIES
    ensures TargetsOk(targets[i := t], cursor)
  {
    var next := targets[i := t];
    forall j | 0 <= j < |next| ensures TargetOk(next[j]) && Represented(next, next[j]) {
      if j != i && next[j].duplicateOf.Some? {
        var r :| 0 <= r < |targets| && targets[r].key == targets[j].duplicateOf.value && targets[r].bound.Some?;
        assert next[r].key == targets[r].key && next[r].bound.Some?;
      }
    }
  }

  lemma AdvanceOk(lane: Lane, v: Verdict)
    requires lane.cursor < |lane.targets|
    requires DistinctKeys(lane.targets) && DistinctBounds(lane.targets)
    requires forall i | 0 <= i < |lane.targets| ::
               TargetOk(lane.targets[i]) && Represented(lane.targets, lane.targets[i])
    requires forall i | 0 <= i < lane.cursor :: !lane.targets[i].coverage.Pending?
    requires forall i | lane.cursor < i < |lane.targets| ::
               (lane.targets[i].coverage.Pending? || lane.targets[i].coverage.Unresolved?)
               && lane.targets[i].attempts <= RETRIES
    requires v.SameAs? ==>
               lane.targets[lane.cursor].bound.None?
               && exists r :: 0 <= r < |lane.targets| && r != lane.cursor && lane.targets[r].key == v.key
                              && lane.targets[r].bound.Some?
    ensures var next := Advance(lane, v);
            && next.cursor <= |next.targets| && TargetsOk(next.targets, next.cursor)
            && (RoundOver(next) ==> next.cursor == |next.targets|)
            && (next.status.Whole? ==> next.truncated == 0 && !AnyUnresolved(next.targets))
  {
    var next := Advance(lane, v);
    forall j | 0 <= j < |next.targets| ensures TargetOk(next.targets[j]) && Represented(next.targets, next.targets[j]) {
      if j == lane.cursor {
        if v.SameAs? {
          var r :| 0 <= r < |lane.targets| && r != lane.cursor && lane.targets[r].key == v.key
                   && lane.targets[r].bound.Some?;
          assert next.targets[r] == lane.targets[r];
        }
      } else if next.targets[j].duplicateOf.Some? {
        var r :| 0 <= r < |lane.targets| && lane.targets[r].key == lane.targets[j].duplicateOf.value
                 && lane.targets[r].bound.Some?;
        assert next.targets[r].key == lane.targets[r].key && next.targets[r].bound == lane.targets[r].bound;
      }
    }
  }

  lemma FailOk(lane: Lane)
    requires LaneOk(lane) && lane.cursor < |lane.targets|
    ensures LaneOk(Fail(lane))
  {
    var t := lane.targets[lane.cursor];
    var tried := Put(lane, lane.cursor, t.(attempts := t.attempts + 1, coverage := Unresolved));
    if t.attempts + 1 > RETRIES {
      TriedOk(lane, tried);
      AdvanceOk(tried, GaveUp);
    } else {
      PutOk(lane.targets, lane.cursor, lane.cursor, t.(attempts := t.attempts + 1, coverage := Unresolved));
    }
  }

  /** One attempt more does not change who represents whom. */
  lemma TriedOk(lane: Lane, tried: Lane)
    requires LaneOk(lane) && lane.cursor < |lane.targets|
    requires var t := lane.targets[lane.cursor];
             tried == Put(lane, lane.cursor, t.(attempts := t.attempts + 1, coverage := Unresolved))
    ensures forall j | 0 <= j < |tried.targets| ::
              TargetOk(tried.targets[j]) && Represented(tried.targets, tried.targets[j])
  {
    forall j | 0 <= j < |tried.targets|
      ensures TargetOk(tried.targets[j]) && Represented(tried.targets, tried.targets[j])
    {
      if j != lane.cursor && lane.targets[j].duplicateOf.Some? {
        var r :| 0 <= r < |lane.targets| && lane.targets[r].key == lane.targets[j].duplicateOf.value
                 && lane.targets[r].bound.Some?;
        assert tried.targets[r].key == lane.targets[r].key && tried.targets[r].bound == lane.targets[r].bound;
      }
    }
  }

  lemma SelectOk(lane: Lane, url: Url)
    requires LaneOk(lane) && lane.status.Scanning? && lane.cursor < |lane.targets|
            && lane.targets[lane.cursor].selection
    ensures LaneOk(Select(lane, url))
  {
    var twin := FirstTwin(lane, url, 0);
    var t := lane.targets[lane.cursor];
    assert TargetOk(t);
    if twin.Some? {
      AdvanceOk(lane, SameAs(lane.targets[twin.value].key));
    } else {
      forall j | 0 <= j < |lane.targets| && j != lane.cursor ensures lane.targets[j].bound != Some(url) {
        assert !IsTwin(lane, j, url) && TargetOk(lane.targets[j]);
      }
      PutOk(lane.targets, lane.cursor, lane.cursor, t.(url := url, bound := Some(url), selection := false));
    }
  }

  /** Appending fresh targets with new keys. */
  lemma AppendOk(targets: seq<Target>, cursor: nat, more: seq<Target>)
    requires TargetsOk(targets, cursor) && cursor <= |targets| && DistinctKeys(targets + more)
    requires forall t | t in more :: t.bound.None? && t.coverage.Pending? && t.duplicateOf.None? && t.attempts == 0
    ensures TargetsOk(targets + more, cursor)
  {
    var next := targets + more;
    forall j | |targets| <= j < |next|
      ensures next[j].bound.None? && next[j].coverage.Pending? && next[j].duplicateOf.None? && next[j].attempts == 0
    {
      assert next[j] in more;
    }
    forall j | 0 <= j < |next| ensures TargetOk(next[j]) && Represented(next, next[j]) {
      if j < |targets| && next[j].duplicateOf.Some? {
        var r :| 0 <= r < |targets| && targets[r].key == targets[j].duplicateOf.value && targets[r].bound.Some?;
        assert next[r] == targets[r];
      }
    }
  }

  /** Discovery appends fresh targets with keys that are all new. */
  lemma {:induction false} TakeAllAppends(targets: seq<Target>, known: set<Key>, cs: seq<Candidate>)
    requires DistinctKeys(targets) && KeysOf(targets) <= known
    ensures var (ts, ks, dropped) := TakeAll(targets, known, cs);
            && targets <= ts && DistinctKeys(ts) && KeysOf(ts) <= ks
            && (forall t | t in ts[|targets|..] :: t == NewTarget(t.key, t.url, true))
            && |ts| <= (if |targets| > MAX_TARGETS then |targets| else MAX_TARGETS)
    decreases |cs|
  {
    if cs != [] {
      var n := |cs| - 1;
      TakeAllAppends(targets, known, cs[..n]);
      var (ts, ks, dropped) := TakeAll(targets, known, cs[..n]);
      TakeAppends(targets, ts, ks, dropped, cs[n]);
    }
  }

  lemma TakeAppends(targets: seq<Target>, ts: seq<Target>, ks: set<Key>, dropped: nat, c: Candidate)
    requires targets <= ts && DistinctKeys(ts) && KeysOf(ts) <= ks
    requires forall t | t in ts[|targets|..] :: t == NewTarget(t.key, t.url, true)
    requires |ts| <= (if |targets| > MAX_TARGETS then |targets| else MAX_TARGETS)
    ensures var (us, ls, _) := Take(ts, ks, dropped, c);
            && targets <= us && DistinctKeys(us) && KeysOf(us) <= ls
            && (forall t | t in us[|targets|..] :: t == NewTarget(t.key, t.url, true))
            && |us| <= (if |targets| > MAX_TARGETS then |targets| else MAX_TARGETS)
  {
    var us := Take(ts, ks, dropped, c).0;
    if us != ts {
      var t := NewTarget(c.key, c.url, true);
      assert us == ts + [t];
      assert us[|targets|..] == ts[|targets|..] + [t];
      forall i | 0 <= i < |ts| ensures ts[i].key != c.key {
        assert ts[i] in ts && ts[i].key in KeysOf(ts);
      }
    }
  }

  lemma DiscoverOk(lane: Lane, cs: seq<Candidate>)
    requires LaneOk(lane) && lane.status.Scanning?
    ensures LaneOk(Discover(lane, cs))
  {
    var listed := if |cs| > MAX_TARGETS + 1 then cs[..MAX_TARGETS + 1] else cs;
    TakeAllAppends(lane.targets, KeysOf(lane.targets), listed);
    var ts := TakeAll(lane.targets, KeysOf(lane.targets), listed).0;
    assert ts == lane.targets + ts[|lane.targets|..];
    AppendOk(lane.targets, lane.cursor, ts[|lane.targets|..]);
  }

  // ---------------------------------------------------------------- rounds

  lemma {:induction false} MissingAre(targets: seq<Target>, keys: set<Key>)
    requires DistinctKeys(targets)
    ensures DistinctKeys(Missing(targets, keys))
    ensures forall t :: t in Missing(targets, keys) <==> t in targets && t.key !in keys
    decreases |targets|
  {
    if targets != [] {
      var n := |targets| - 1;
      MissingAre(targets[..n], keys);
      assert targets == targets[..n] + [targets[n]];
      forall t | t in Missing(targets[..n], keys) ensures t.key != targets[n].key {
        assert t in targets[..n];
      }
    }
  }

  /** Exactly the unresolved targets are carried, with their attempts forgotten. */
  lemma {:induction false} CarriedAre(targets: seq<Target>)
    requires forall t | t in targets :: TargetOk(t)
    ensures forall t | t in targets && t.coverage.Unresolved? :: Cleared(t) in Carried(targets)
    ensures forall c | c in Carried(targets) ::
              exists t :: t in targets && t.coverage.Unresolved? && c == Cleared(t)
    decreases |targets|
  {
    if targets != [] {
      var n := |targets| - 1;
      assert targets == targets[..n] + [targets[n]];
      CarriedAre(targets[..n]);
      forall c | c in Carried(targets)
        ensures exists t :: t in targets && t.coverage.Unresolved? && c == Cleared(t)
      {
        if c in Carried(targets[..n]) {
          var t :| t in targets[..n] && t.coverage.Unresolved? && c == Cleared(t);
          assert t in targets;
        } else {
          assert targets[n] in targets && c == Cleared(targets[n]);
        }
      }
    }
  }

  /** What is carried from the front differs from the last target. */
  lemma CarriedApart(targets: seq<Target>, c: Target)
    requires targets != [] && DistinctKeys(targets) && DistinctBounds(targets)
    requires forall t | t in targets :: TargetOk(t)
    requires c in Carried(targets[..|targets| - 1])
    ensures var last := targets[|targets| - 1];
            && c.key != last.key
            && (c.bound.Some? || last.bound.Some? ==> c.bound != last.bound)
  {
    var n := |targets| - 1;
    forall t | t in targets[..n] ensures TargetOk(t) { assert t in targets; }
    CarriedAre(targets[..n]);
    var t :| t in targets[..n] && t.coverage.Unresolved? && c == Cleared(t);
    var i :| 0 <= i < n && targets[i] == t;
  }

  lemma {:induction false} CarriedDistinct(targets: seq<Target>)
    requires DistinctKeys(targets) && DistinctBounds(targets) && forall t | t in targets :: TargetOk(t)
    ensures DistinctKeys(Carried(targets)) && DistinctBounds(Carried(targets))
    decreases |targets|
  {
    if targets != [] {
      var n := |targets| - 1;
      var front := Carried(targets[..n]);
      CarriedDistinct(targets[..n]);
      forall c | c in front
        ensures c.key != targets[n].key && (c.bound.Some? ==> c.bound != targets[n].bound)
        ensures targets[n].bound.Some? ==> c.bound != targets[n].bound
      {
        CarriedApart(targets, c);
      }
      OneMoreDistinct(front, Cleared(targets[n]));
    }
  }

  lemma OneMoreDistinct(front: seq<Target>, t: Target)
    requires DistinctKeys(front) && DistinctBounds(front)
    requires forall c | c in front :: c.key != t.key && (c.bound.Some? ==> c.bound != t.bound)
                                      && (t.bound.Some? ==> c.bound != t.bound)
    ensures DistinctKeys(front + [t]) && DistinctBounds(front + [t])
  {
    forall i | 0 <= i < |front| ensures front[i] in front {}
  }

  lemma InitialDistinct(f: Fingerprint)
    requires Normal(f)
    ensures DistinctKeys(InitialTargets(f))
  {
  }

  lemma FreshLaneOk(lane: Lane, f: Fingerprint)
    requires LaneOk(lane)
    requires Normal(f)
    ensures LaneOk(FreshLane(Some(lane), f))
  {
    var carried := if lane.fingerprint == f then Carried(lane.targets) else [];
    if lane.fingerprint == f {
      CarriedAre(lane.targets);
      CarriedDistinct(lane.targets);
    }
    forall c | c in carried ensures c.coverage.Unresolved? && c.attempts == 0 && TargetOk(c) && c.duplicateOf.None? {
      var t :| t in lane.targets && t.coverage.Unresolved? && c == Cleared(t);
      assert TargetOk(t);
    }
    InitialDistinct(f);
    var keys := KeysOf(carried);
    var more := Missing(InitialTargets(f), keys);
    MissingAre(InitialTargets(f), keys);
    assert TargetsOk(carried, 0) by {
      forall i | 0 <= i < |carried| ensures TargetOk(carried[i]) && carried[i].coverage.Unresolved?
              && carried[i].attempts == 0
        && carried[i].duplicateOf.None?
      {
        assert carried[i] in carried;
      }
    }
    JoinedDistinct(carried, more);
    AppendOk(carried, 0, more);
  }

  lemma JoinedDistinct(a: seq<Target>, b: seq<Target>)
    requires DistinctKeys(a) && DistinctKeys(b) && forall t | t in b :: t.key !in KeysOf(a)
    ensures DistinctKeys(a + b)
  {
    forall i, j | 0 <= i < j < |a + b| ensures (a + b)[i].key != (a + b)[j].key {
      if i < |a| <= j {
        assert (a + b)[i] in a && (a + b)[j] in b;
        assert (a + b)[i].key in KeysOf(a);
      }
    }
  }

  lemma AppendQueriesOk(lane: Lane, f: Fingerprint)
    requires LaneOk(lane) && Extends(lane.fingerprint, f)
    requires Normal(f)
    ensures LaneOk(AppendQueries(lane, f))
  {
    var tail := InitialTargets(f)[|lane.fingerprint.queries|..];
    var more := Missing(tail, KeysOf(lane.targets));
    MissingAre(tail, KeysOf(lane.targets));
    forall t | t in more ensures t.bound.None? && t.coverage.Pending? && t.duplicateOf.None? && t.attempts == 0 {
      assert t in tail;
    }
    JoinedDistinct(lane.targets, more);
    AppendOk(lane.targets, lane.cursor, more);
    if more == [] { assert lane.targets + more == lane.targets; }
  }

  lemma BegunOk(lane: Lane)
    requires LaneOk(lane) && !RoundOver(lane) && lane.cursor < |lane.targets|
    ensures LaneOk(Begun(lane))
  {
    var t := lane.targets[lane.cursor];
    assert TargetOk(t) && Represented(lane.targets, t);
    PutOk(lane.targets, lane.cursor, lane.cursor, t.(attempted := true));
  }

  /** Breaking off the current target leaves it for the next round. */
  lemma InterruptedOk(lane: Lane)
    requires LaneOk(lane)
    ensures LaneOk(Interrupted(lane))
  {
    if Interrupted(lane) != lane {
      var t := lane.targets[lane.cursor];
      assert TargetOk(t) && Represented(lane.targets, t);
      PutOk(lane.targets, lane.cursor, lane.cursor, t.(coverage := Unresolved));
    }
  }

  lemma StepOk(lane: Lane, e: Event)
    requires LaneOk(lane) && Enabled(lane, e) && EventOk(e)
    ensures LaneOk(Step(lane, e))
  {
    match e
    case Start => BegunOk(lane);
    case Stuck => FailOk(lane);
    case Unusable(_) => FailOk(lane);
    case SweepDone(_, limited) => AdvanceOk(lane, if limited then Limited else Covered);
    case Selected(_, url) => SelectOk(lane, url);
    case Discovered(_, cs) => DiscoverOk(lane, cs);
    case NewRound(_) => FreshLaneOk(lane, lane.fingerprint);
    case Restart(f) =>
      InterruptedOk(lane);
      FreshLaneOk(Interrupted(lane), f);
    case Reconfigure(f) =>
      if Extends(lane.fingerprint, f) { AppendQueriesOk(lane, f); } else { FreshLaneOk(lane, f); }
    case _ =>
  }
}
