/** What holds of every history of a lane. */
module LaneTheorems {
  import opened Basics
  import opened LaneTables
  import opened LaneRun

  ghost predicate Run(lanes: seq<Lane>, events: seq<Event>) {
    && |lanes| == |events| + 1
    && Normal(lanes[0].fingerprint) && lanes[0] == FreshLane(None, lanes[0].fingerprint)
    && forall i | 0 <= i < |events| ::
         Enabled(lanes[i], events[i]) && EventOk(events[i]) && lanes[i + 1] == Step(lanes[i], events[i])
  }

  lemma FirstTargetsOk(f: Fingerprint)
    requires Normal(f)
    ensures TargetsOk(Missing(InitialTargets(f), KeysOf([])), 0)
  {
    var none: seq<Target> := [];
    var more := Missing(InitialTargets(f), KeysOf(none));
    InitialDistinct(f);
    MissingAre(InitialTargets(f), KeysOf(none));
    assert none + more == more;
    AppendOk(none, 0, more);
  }

  lemma FirstLaneOk(f: Fingerprint)
    requires Normal(f)
    ensures LaneOk(FreshLane(None, f))
  {
    FirstTargetsOk(f);
    var more := Missing(InitialTargets(f), KeysOf([]));
    assert [] + more == more;
  }

  lemma {:induction false} RunOk(lanes: seq<Lane>, events: seq<Event>, n: nat)
    requires Run(lanes, events) && n < |lanes|
    ensures LaneOk(lanes[n])
  {
    if n == 0 {
      FirstLaneOk(lanes[0].fingerprint);
    } else {
      RunOk(lanes, events, n - 1);
      StepOk(lanes[n - 1], events[n - 1]);
    }
  }

  // ---------------------------------------------------------------- honest coverage

  /** The target is complete, or the twin that stands for it is. */
  ghost predicate CoveredAt(targets: seq<Target>, i: nat)
    requires i < |targets|
  {
    || targets[i].coverage.Complete?
    || (targets[i].coverage.Duplicate?
        && exists r :: 0 <= r < |targets|
                       && targets[i].duplicateOf == Some(targets[r].key) && targets[r].coverage.Complete?)
  }

  lemma CoveredHere(targets: seq<Target>, i: nat)
    requires TargetsOk(targets, |targets|) && !AnyUnresolved(targets) && i < |targets|
    ensures CoveredAt(targets, i)
  {
    assert TargetOk(targets[i]) && Represented(targets, targets[i]);
    if targets[i].coverage.Duplicate? {
      var r :| 0 <= r < |targets| && targets[r].key == targets[i].duplicateOf.value && targets[r].bound.Some?;
      assert TargetOk(targets[r]) && !targets[r].coverage.Duplicate?;
      assert targets[r].coverage.Complete?;
    }
  }

  /** A whole round has covered every target, or has covered the twin that stands for it, and no
      candidate was dropped. */
  lemma WholeIsHonest(lanes: seq<Lane>, events: seq<Event>, n: nat, i: nat)
    requires Run(lanes, events) && n < |lanes| && lanes[n].status.Whole? && i < |lanes[n].targets|
    ensures lanes[n].truncated == 0 && lanes[n].cursor == |lanes[n].targets|
    ensures CoveredAt(lanes[n].targets, i)
  {
    RunOk(lanes, events, n);
    CoveredHere(lanes[n].targets, i);
  }

  /** A round that is over never hides a pending target. */
  lemma OverIsJudged(lanes: seq<Lane>, events: seq<Event>, n: nat, i: nat)
    requires Run(lanes, events) && n < |lanes| && RoundOver(lanes[n]) && i < |lanes[n].targets|
    ensures !lanes[n].targets[i].coverage.Pending?
    ensures lanes[n].targets[i].coverage.Unresolved? ==> lanes[n].status.Partial?
  {
    RunOk(lanes, events, n);
  }

  /** A new round under the same configuration, when due or by the user's restart. */
  ghost predicate Renews(lane: Lane, e: Event) {
    e.NewRound? || (e.Restart? && e.f == lane.fingerprint)
  }

  /** What a new round takes along: what is unresolved, and the target a restart breaks off. */
  ghost predicate Outstanding(lane: Lane, i: nat)
    requires i < |lane.targets|
  {
    lane.targets[i].coverage.Unresolved? || (i == lane.cursor && lane.targets[i].attempted)
  }

  lemma RenewedShape(lane: Lane, e: Event)
    requires LaneOk(lane) && Enabled(lane, e) && Renews(lane, e)
    ensures Step(lane, e) == FreshLane(Some(Interrupted(lane)), lane.fingerprint)
    ensures LaneOk(Interrupted(lane)) && |Interrupted(lane).targets| == |lane.targets|
    ensures forall i | 0 <= i < |lane.targets| ::
              var t := Interrupted(lane).targets[i];
              t.key == lane.targets[i].key && (t.coverage.Unresolved? <==> Outstanding(lane, i))
              && (Outstanding(lane, i) ==> t == lane.targets[i].(coverage := Unresolved))
  {
    InterruptedOk(lane);
  }

  /** What is unresolved when a round under the same configuration begins, and what a restart breaks
      off, is in that round, to be tried again. */
  lemma UnresolvedSurvives(lanes: seq<Lane>, events: seq<Event>, n: nat, i: nat)
    requires Run(lanes, events) && n < |events| && Renews(lanes[n], events[n]) && i < |lanes[n].targets|
    requires Outstanding(lanes[n], i)
    ensures lanes[n].targets[i].(coverage := Unresolved, attempts := 0, attempted := false) in lanes[n + 1].targets
  {
    RunOk(lanes, events, n);
    RenewedShape(lanes[n], events[n]);
    var targets := Interrupted(lanes[n]).targets;
    forall u | u in targets ensures TargetOk(u) {}
    CarriedAre(targets);
    assert targets[i] in targets;
    assert Cleared(targets[i]) in Carried(targets);
  }

  /** And nothing else is but the configuration's own targets: a new round forgets exactly what is
      neither outstanding nor initial, a restart also what was found and is still pending. */
  lemma RenewalKnowsExactly(lanes: seq<Lane>, events: seq<Event>, n: nat, i: nat)
    requires Run(lanes, events) && n < |events| && Renews(lanes[n], events[n]) && i < |lanes[n].targets|
    ensures var key := lanes[n].targets[i].key;
            Knows(lanes[n + 1].targets, key)
            <==> Outstanding(lanes[n], i) || key in KeysOf(InitialTargets(lanes[n].fingerprint))
  {
    RunOk(lanes, events, n);
    RenewedKnows(lanes[n], events[n], i);
  }

  lemma RenewedKnows(lane: Lane, e: Event, i: nat)
    requires LaneOk(lane) && Enabled(lane, e) && Renews(lane, e) && i < |lane.targets|
    ensures var key := lane.targets[i].key;
            Knows(Step(lane, e).targets, key)
            <==> Outstanding(lane, i) || key in KeysOf(InitialTargets(lane.fingerprint))
  {
    RenewedShape(lane, e);
    KnownAfter(Interrupted(lane), i);
  }

  lemma KnownAfter(lane: Lane, i: nat)
    requires LaneOk(lane) && i < |lane.targets|
    ensures var t := lane.targets[i];
            Knows(FreshLane(Some(lane), lane.fingerprint).targets, t.key)
            <==> t.coverage.Unresolved? || t.key in KeysOf(InitialTargets(lane.fingerprint))
  {
    var t, initial := lane.targets[i], InitialTargets(lane.fingerprint);
    forall u | u in lane.targets ensures TargetOk(u) {}
    CarriedAre(lane.targets);
    var carried := Carried(lane.targets);
    var more := Missing(initial, KeysOf(carried));
    InitialDistinct(lane.fingerprint);
    MissingAre(initial, KeysOf(carried));
    var next := carried + more;
    if Knows(next, t.key) {
      var k :| 0 <= k < |next| && next[k].key == t.key;
      assert next[k] in carried || next[k] in more;
    }
    if t.coverage.Unresolved? {
      KnowsIn(next, Cleared(t));
    } else if t.key in KeysOf(initial) {
      var u :| u in initial && u.key == t.key;
      MissingHolds(initial, KeysOf(carried), u);
      var v :| v in next && v.key == t.key;
      KnowsIn(next, v);
    }
  }

  lemma KnowsIn(targets: seq<Target>, t: Target)
    requires t in targets
    ensures Knows(targets, t.key)
  {
  }

  /** The next round of a finished one may begin with periodic refresh off unless everything is
      covered; dropped candidates alone, which also make a round partial, do not bring it back. */
  lemma NextRoundComes(lanes: seq<Lane>, events: seq<Event>, n: nat)
    requires Run(lanes, events) && n < |lanes| && RoundOver(lanes[n])
    ensures !Enabled(lanes[n], NewRound(false))
            <==> forall i | 0 <= i < |lanes[n].targets| :: CoveredAt(lanes[n].targets, i)
    ensures Enabled(lanes[n], NewRound(false)) ==> lanes[n].status.Partial?
  {
    RunOk(lanes, events, n);
    var targets := lanes[n].targets;
    if AnyUnresolved(targets) {
      var i :| 0 <= i < |targets| && targets[i].coverage.Unresolved?;
      assert !CoveredAt(targets, i);
    } else {
      forall i | 0 <= i < |targets| ensures CoveredAt(targets, i) {
        CoveredHere(targets, i);
      }
    }
  }

  /** A scheduled round begins only behind the last target, so it forgets only complete targets and
      duplicates. */
  lemma NewRoundForgetsOnlyCovered(lanes: seq<Lane>, events: seq<Event>, n: nat, i: nat)
    requires Run(lanes, events) && n < |events| && events[n].NewRound? && i < |lanes[n].targets|
    ensures var t := lanes[n].targets[i];
            t.coverage.Complete? || t.coverage.Duplicate? || Knows(lanes[n + 1].targets, t.key)
  {
    RunOk(lanes, events, n);
    RenewalKnowsExactly(lanes, events, n, i);
  }

  /** A run in which a restart forgets: of two found targets one is started and stays, the other is
      pending and goes. */
  lemma RestartForgetsFound(f: Fingerprint, a: Candidate, b: Candidate) returns (lanes: seq<Lane>, events: seq<Event>)
    requires f.Departments? && a.valid && b.valid && a.key.Found? && b.key.Found? && a.key != b.key
    ensures Run(lanes, events) && events == [Start, Discovered(1, [a, b]), SweepDone(1, false), Start, Restart(f)]
    ensures lanes[4].targets == [Judged(Started(HomePage()), Covered), Started(Hit(a)), Hit(b)]
    ensures Knows(lanes[5].targets, a.key) && !Knows(lanes[5].targets, b.key)
  {
    lanes := FoundRun(f, a, b);
    events := [Start, Discovered(1, [a, b]), SweepDone(1, false), Start];
    RunOk(lanes, events, 4);
    RestartedKnows(lanes[4], a, b);
    lanes, events := lanes + [Step(lanes[4], Restart(f))], events + [Restart(f)];
  }

  lemma FoundRun(f: Fingerprint, a: Candidate, b: Candidate) returns (lanes: seq<Lane>)
    requires f.Departments? && a.valid && b.valid && a.key.Found? && b.key.Found? && a.key != b.key
    ensures Run(lanes, [Start, Discovered(1, [a, b]), SweepDone(1, false), Start])
    ensures lanes[4].targets == [Judged(Started(HomePage()), Covered), Started(Hit(a)), Hit(b)]
    ensures lanes[4].cursor == 1 && lanes[4].fingerprint == f
  {
    FirstDepartments(f);
    var first := FreshLane(None, f);
    var found := FoundTwo(first, a, b);
    var second := NextStarted(found, a, b);
    lanes := [first, Step(first, Start), found, Step(found, SweepDone(1, false)), second];
  }

  lemma RestartedKnows(second: Lane, a: Candidate, b: Candidate)
    requires LaneOk(second) && second.fingerprint.Departments? && a.key.Found? && b.key.Found?
    requires second.targets == [Judged(Started(HomePage()), Covered), Started(Hit(a)), Hit(b)] && second.cursor == 1
    ensures var next := Step(second, Restart(second.fingerprint));
            Knows(next.targets, a.key) && !Knows(next.targets, b.key)
  {
    assert InitialTargets(second.fingerprint) == [HomePage()];
    RenewedKnows(second, Restart(second.fingerprint), 1);
    RenewedKnows(second, Restart(second.fingerprint), 2);
  }

  lemma FoundTwo(first: Lane, a: Candidate, b: Candidate) returns (found: Lane)
    requires first == Lane(first.fingerprint, [HomePage()], 0, Ready, 1, 1, 0) && first.fingerprint.Departments?
    requires a.valid && b.valid && a.key.Found? && b.key.Found? && a.key != b.key
    ensures Enabled(first, Start) && Enabled(Step(first, Start), Discovered(1, [a, b]))
    ensures found == Step(Step(first, Start), Discovered(1, [a, b]))
    ensures found == first.(targets := [Started(HomePage()), Hit(a), Hit(b)], status := Scanning)
  {
    var started := Step(first, Start);
    FoundBoth(started, a, b);
    found := Step(started, Discovered(1, [a, b]));
  }

  lemma NextStarted(found: Lane, a: Candidate, b: Candidate) returns (second: Lane)
    requires found.targets == [Started(HomePage()), Hit(a), Hit(b)] && found.cursor == 0 && found.status.Scanning?
    requires found.generation == 1 && a.key.Found? && b.key.Found?
    ensures Enabled(found, SweepDone(1, false)) && Enabled(Step(found, SweepDone(1, false)), Start)
    ensures second == Step(Step(found, SweepDone(1, false)), Start) && second.fingerprint == found.fingerprint
    ensures second.targets == [Judged(Started(HomePage()), Covered), Started(Hit(a)), Hit(b)] && second.cursor == 1
  {
    second := Step(Step(found, SweepDone(1, false)), Start);
  }

  function HomePage(): Target {
    NewTarget(Discovery, HOME, false)
  }

  function Hit(c: Candidate): Target {
    NewTarget(c.key, c.url, true)
  }

  function Started(t: Target): Target {
    t.(attempted := true)
  }

  lemma FirstDepartments(f: Fingerprint)
    requires f.Departments?
    ensures FreshLane(None, f) == Lane(f, [HomePage()], 0, Ready, 1, 1, 0)
  {
    var initial, none := InitialTargets(f), KeysOf([]);
    assert initial[..0] == [];
    assert Missing(initial[..0], none) == [];
    assert Missing(initial, none) == [] + [HomePage()];
    assert [] + [HomePage()] == [HomePage()];
  }

  lemma FoundBoth(lane: Lane, a: Candidate, b: Candidate)
    requires lane.targets == [Started(HomePage())]
    requires a.valid && b.valid && a.key.Found? && b.key.Found? && a.key != b.key
    ensures Discover(lane, [a, b]) == lane.(targets := [Started(HomePage()), Hit(a), Hit(b)])
  {
    var cs, known := [a, b], KeysOf(lane.targets);
    assert cs[..1] == [a] && [a][..0] == [];
    assert known == {Discovery};
    assert TakeAll(lane.targets, known, []) == (lane.targets, known, 0);
    assert TakeAll(lane.targets, known, [a]) == (lane.targets + [Hit(a)], known + {a.key}, 0);
    assert TakeAll(lane.targets, known, cs) == (lane.targets + [Hit(a)] + [Hit(b)], known + {a.key} + {b.key}, 0);
  }

  /** Everything but a new round, a restart and a configuration that does not extend the old one keeps
      every target at its place. */
  lemma OnlyRoundsForget(lanes: seq<Lane>, events: seq<Event>, n: nat, i: nat)
    requires Run(lanes, events) && n < |events| && i < |lanes[n].targets|
    requires WithinRound(events[n]) || (events[n].Reconfigure? && Extends(lanes[n].fingerprint, events[n].f))
    ensures i < |lanes[n + 1].targets| && lanes[n + 1].targets[i].key == lanes[n].targets[i].key
  {
    RunOk(lanes, events, n);
    KeepsPlaces(lanes[n], events[n], i);
  }

  lemma KeepsPlaces(lane: Lane, e: Event, i: nat)
    requires LaneOk(lane) && Enabled(lane, e) && i < |lane.targets|
    requires WithinRound(e) || (e.Reconfigure? && Extends(lane.fingerprint, e.f))
    ensures i < |Step(lane, e).targets| && Step(lane, e).targets[i].key == lane.targets[i].key
  {
    if e.Discovered? { var more := Discoveries(lane, e.cs); }
  }

  /** Discovery appends fresh targets. */
  lemma Discoveries(lane: Lane, cs: seq<Candidate>) returns (more: seq<Target>)
    requires LaneOk(lane)
    ensures Discover(lane, cs).targets == lane.targets + more && Discover(lane, cs).cursor == lane.cursor
    ensures forall i | 0 <= i < |more| :: more[i].attempts == 0
    ensures more != [] ==> |lane.targets + more| <= MAX_TARGETS
  {
    var listed := if |cs| > MAX_TARGETS + 1 then cs[..MAX_TARGETS + 1] else cs;
    TakeAllAppends(lane.targets, KeysOf(lane.targets), listed);
    var ts := TakeAll(lane.targets, KeysOf(lane.targets), listed).0;
    more := ts[|lane.targets|..];
    assert ts == lane.targets + more;
    forall i | 0 <= i < |more| ensures more[i].attempts == 0 { assert more[i] in more; }
  }

  /** Appended keywords leave the running work exactly as it is. */
  lemma AppendKeepsWork(lane: Lane, f: Fingerprint)
    requires LaneOk(lane) && Extends(lane.fingerprint, f)
    ensures var next := AppendQueries(lane, f);
            && lane.targets <= next.targets && next.cursor == lane.cursor && next.generation == lane.generation
            && (!RoundOver(lane) ==> next.status == lane.status)
            && (next.targets != lane.targets && RoundOver(lane) ==> next.status.Waiting?)
            && forall q | q in f.queries && q !in lane.fingerprint.queries :: Knows(next.targets, Keyword(false, q))
  {
    var next := AppendQueries(lane, f);
    var all := InitialTargets(f);
    var tail := all[|lane.fingerprint.queries|..];
    forall q | q in f.queries && q !in lane.fingerprint.queries ensures Knows(next.targets, Keyword(false, q)) {
      var i :| 0 <= i < |f.queries| && f.queries[i] == q;
      var t := all[i];
      assert i >= |lane.fingerprint.queries|;
      assert t == tail[i - |lane.fingerprint.queries|] && t in tail;
      MissingHolds(tail, KeysOf(lane.targets), t);
      if t.key in KeysOf(lane.targets) {
        var u :| u in lane.targets && u.key == t.key;
        var k :| 0 <= k < |lane.targets| && lane.targets[k] == u;
        assert next.targets[k].key == t.key;
      } else {
        assert t in next.targets;
      }
    }
  }

  lemma {:induction false} MissingHolds(targets: seq<Target>, keys: set<Key>, t: Target)
    requires t in targets
    ensures t.key in keys || t in Missing(targets, keys)
    decreases |targets|
  {
    var n := |targets| - 1;
    if t in targets[..n] {
      MissingHolds(targets[..n], keys, t);
    } else {
      assert targets == targets[..n] + [targets[n]];
    }
  }

  // ---------------------------------------------------------------- one verdict per lease

  predicate IsVerdict(lane: Lane, e: Event) {
    e.Stuck? || e.Unusable? || e.SweepDone?
    || (e.Selected? && lane.cursor < |lane.targets| && FirstTwin(lane, e.url, 0).Some?)
  }

  predicate WithinRound(e: Event) {
    !e.NewRound? && !e.Restart? && !e.Reconfigure?
  }

  /** Generations never fall, and every verdict ends the lease it was given under. */
  lemma VerdictEndsLease(lane: Lane, e: Event)
    requires Enabled(lane, e)
    ensures lane.generation <= Step(lane, e).generation
    ensures IsVerdict(lane, e) ==> lane.generation < Step(lane, e).generation
    ensures e.NewRound? || e.Restart? ==> lane.generation < Step(lane, e).generation
  {
  }

  lemma GenerationStep(lanes: seq<Lane>, events: seq<Event>, k: nat)
    requires Run(lanes, events) && k < |events|
    ensures lanes[k].generation <= lanes[k + 1].generation
  {
    VerdictEndsLease(lanes[k], events[k]);
  }

  lemma {:induction false} GenerationsGrow(lanes: seq<Lane>, events: seq<Event>, n: nat, m: nat)
    requires Run(lanes, events) && n <= m < |lanes|
    ensures lanes[n].generation <= lanes[m].generation
    decreases m - n
  {
    if n < m {
      GenerationsGrow(lanes, events, n, m - 1);
      GenerationStep(lanes, events, m - 1);
    }
  }

  /** A message leased under a generation that has had its verdict is refused for good. */
  lemma OneVerdictPerLease(lanes: seq<Lane>, events: seq<Event>, n: nat, m: nat)
    requires Run(lanes, events) && n < |events| && n < m < |lanes| && IsVerdict(lanes[n], events[n])
    ensures !Leased(lanes[m], lanes[n].generation)
  {
    VerdictEndsLease(lanes[n], events[n]);
    GenerationsGrow(lanes, events, n + 1, m);
  }

  // ---------------------------------------------------------------- the round ends

  /** Attempts still open to the targets from here on. */
  function Open(targets: seq<Target>, from: nat): nat
    decreases |targets| - from
  {
    if from >= |targets| then 0
    else (if targets[from].attempts > RETRIES then 0 else RETRIES + 1 - targets[from].attempts) + Open(targets,
            from + 1)
  }

  function Room(targets: seq<Target>): nat {
    if |targets| < MAX_TARGETS then MAX_TARGETS - |targets| else 0
  }

  /** Remaining targets, their open attempts, and the attempts discovery could still add. */
  function Measure(lane: Lane): nat {
    Open(lane.targets, lane.cursor) + (RETRIES + 1) * Room(lane.targets)
  }

  lemma {:induction false} OpenSame(a: seq<Target>, b: seq<Target>, from: nat)
    requires |a| == |b| && forall i | from <= i < |a| :: a[i].attempts == b[i].attempts
    ensures Open(a, from) == Open(b, from)
    decreases |a| - from
  {
    if from < |a| { OpenSame(a, b, from + 1); }
  }

  lemma {:induction false} OpenAppend(targets: seq<Target>, more: seq<Target>, from: nat)
    requires from <= |targets| && forall i | 0 <= i < |more| :: more[i].attempts == 0
    ensures Open(targets + more, from) == Open(targets, from) + (RETRIES + 1) * |more|
    decreases |targets| - from
  {
    if from < |targets| {
      OpenAppend(targets, more, from + 1);
    } else {
      OpenFresh(targets + more, from);
    }
  }

  lemma {:induction false} OpenFresh(targets: seq<Target>, from: nat)
    requires from <= |targets| && forall i | from <= i < |targets| :: targets[i].attempts == 0
    ensures Open(targets, from) == (RETRIES + 1) * (|targets| - from)
    decreases |targets| - from
  {
    if from < |targets| { OpenFresh(targets, from + 1); }
  }

  lemma AdvanceMeasure(lane: Lane, v: Verdict)
    requires lane.cursor < |lane.targets| && lane.targets[lane.cursor].attempts <= RETRIES
    ensures Measure(Advance(lane, v)) < Measure(lane)
  {
    OpenSame(lane.targets, Advance(lane, v).targets, lane.cursor + 1);
  }

  lemma FailMeasure(lane: Lane)
    requires lane.cursor < |lane.targets| && lane.targets[lane.cursor].attempts <= RETRIES
    ensures Measure(Fail(lane)) < Measure(lane)
  {
    OpenSame(lane.targets, Fail(lane).targets, lane.cursor + 1);
  }

  /** Discovery spends room on exactly the attempts it adds. */
  lemma DiscoverMeasure(lane: Lane, cs: seq<Candidate>)
    requires LaneOk(lane)
    ensures Measure(Discover(lane, cs)) == Measure(lane)
  {
    var more := Discoveries(lane, cs);
    OpenAppend(lane.targets, more, lane.cursor);
  }

  lemma StepMeasure(lane: Lane, e: Event)
    requires LaneOk(lane) && Enabled(lane, e) && WithinRound(e)
    ensures Measure(Step(lane, e)) <= Measure(lane)
    ensures IsVerdict(lane, e) ==> Measure(Step(lane, e)) < Measure(lane)
  {
    match e
    case Start => OpenSame(lane.targets, Begun(lane).targets, lane.cursor);
    case Stuck => FailMeasure(lane);
    case Unusable(_) => FailMeasure(lane);
    case SweepDone(_, limited) => AdvanceMeasure(lane, if limited then Limited else Covered);
    case Selected(_, url) =>
      var twin := FirstTwin(lane, url, 0);
      if twin.Some? {
        AdvanceMeasure(lane, SameAs(lane.targets[twin.value].key));
      } else {
        OpenSame(lane.targets, Select(lane, url).targets, lane.cursor);
      }
    case Discovered(_, cs) => DiscoverMeasure(lane, cs);
    case _ =>
  }

  function Verdicts(lanes: seq<Lane>, events: seq<Event>, n: nat, m: nat): nat
    requires n <= m <= |events| && |events| < |lanes|
    decreases m - n
  {
    if n == m then 0 else Verdicts(lanes, events, n, m - 1) + if IsVerdict(lanes[m - 1], events[m - 1]) then 1 else 0
  }

  lemma RunMeasure(lanes: seq<Lane>, events: seq<Event>, k: nat)
    requires Run(lanes, events) && k < |events| && WithinRound(events[k])
    ensures Measure(lanes[k + 1]) + (if IsVerdict(lanes[k], events[k]) then 1 else 0) <= Measure(lanes[k])
  {
    RunOk(lanes, events, k);
    StepMeasure(lanes[k], events[k]);
  }

  /** Within a round the failures and advances are bounded by the measure at its start. */
  lemma {:induction false} RoundEnds(lanes: seq<Lane>, events: seq<Event>, n: nat, m: nat)
    requires Run(lanes, events) && n <= m < |lanes| && forall i | n <= i < m :: WithinRound(events[i])
    ensures Measure(lanes[m]) + Verdicts(lanes, events, n, m) <= Measure(lanes[n])
    decreases m - n
  {
    if n < m {
      RoundEnds(lanes, events, n, m - 1);
      RunMeasure(lanes, events, m - 1);
    }
  }

  /** Nothing left in the measure means nothing left to scan. */
  lemma SpentMeansOver(lanes: seq<Lane>, events: seq<Event>, n: nat)
    requires Run(lanes, events) && n < |lanes| && Measure(lanes[n]) == 0
    ensures lanes[n].cursor == |lanes[n].targets|
  {
    RunOk(lanes, events, n);
  }
}
