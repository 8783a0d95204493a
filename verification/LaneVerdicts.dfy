/** What each verdict does to the target it is given for, told on the target, and the bounds of a round
    in plain numbers. */
module LaneVerdicts {
  import opened Basics
  import opened LaneTables
  import opened LaneRun
  import opened LaneTheorems

  /** Only the current target may differ. */
  ghost predicate OnlyCurrent(a: Lane, b: Lane) {
    && |b.targets| == |a.targets| && a.cursor < |a.targets|
    && forall i | 0 <= i < |a.targets| && i != a.cursor :: b.targets[i] == a.targets[i]
  }

  /** Judged and left behind: the next target waits, or the round is over, whole exactly when nothing is
      unresolved and nothing was dropped. */
  ghost predicate MovedOn(a: Lane, b: Lane) {
    && b.cursor == a.cursor + 1 && b.generation == a.generation + 1 && b.round == a.round
    && b.truncated == a.truncated && b.fingerprint == a.fingerprint
    && (b.cursor < |b.targets| ==> b.status == Waiting)
    && (b.cursor >= |b.targets| ==>
          b.status == if b.truncated == 0 && forall i | 0 <= i < |b.targets| :: b.targets[i].coverage != Unresolved
                      then Whole else Partial)
  }

  /** A finished sweep completes its target, unless its end could not be verified: then it stays
      unresolved and is marked so. */
  lemma SweepTold(lane: Lane, generation: nat, limited: bool)
    requires Enabled(lane, SweepDone(generation, limited))
    ensures var next := Step(lane, SweepDone(generation, limited));
            && OnlyCurrent(lane, next) && MovedOn(lane, next)
            && next.targets[lane.cursor]
               == lane.targets[lane.cursor].(coverage := if limited then Unresolved else Complete, limited := limited,
                                             duplicateOf := None)
  {
  }

  /** A failed attempt is counted; the first two are tried again, the third leaves the target unresolved
      for the next round. */
  lemma FailureTold(lane: Lane, e: Event)
    requires LaneOk(lane) && Enabled(lane, e) && (e.Stuck? || e.Unusable?)
    ensures var next := Step(lane, e); var t, u := lane.targets[lane.cursor], next.targets[lane.cursor];
            && OnlyCurrent(lane, next) && u.attempts == t.attempts + 1 && u.coverage == Unresolved
            && u.key == t.key && u.url == t.url && u.bound == t.bound && u.selection == t.selection
            && (t.attempts >= 2 ==> MovedOn(lane, next) && !u.limited)
            && (t.attempts < 2 ==> next.cursor == lane.cursor && next.status == Waiting && u.limited == t.limited
                                   && next.generation == lane.generation + 1 && next.truncated == lane.truncated)
  {
    assert TargetOk(lane.targets[lane.cursor]);
  }

  /** A selected facet is bound to its URL, unless another target already is: then it is that one's
      duplicate and left behind. */
  lemma SelectionTold(lane: Lane, generation: nat, url: Url)
    requires LaneOk(lane) && Enabled(lane, Selected(generation, url))
    ensures var next := Step(lane, Selected(generation, url));
            var t, u := lane.targets[lane.cursor], next.targets[lane.cursor];
            && OnlyCurrent(lane, next)
            && (if exists i :: 0 <= i < |lane.targets| && lane.targets[i].bound == Some(url) then
                  MovedOn(lane, next) && u.coverage == Duplicate && u.bound == t.bound && !u.limited
                  && exists i :: 0 <= i < |lane.targets| && lane.targets[i].bound == Some(url)
                                 && u.duplicateOf == Some(lane.targets[i].key)
                else
                  next == lane.(targets := next.targets)
                  && u == t.(url := url, bound := Some(url), selection := false))
  {
    var t := lane.targets[lane.cursor];
    assert TargetOk(t);
    var twin := FirstTwin(lane, url, 0);
    if i :| 0 <= i < |lane.targets| && lane.targets[i].bound == Some(url) {
      assert TargetOk(lane.targets[i]);
      assert IsTwin(lane, i, url);
      assert twin.Some? && lane.targets[twin.value].bound == Some(url);
    }
  }

  /** The first of the candidates with its key, valid and not known before. */
  predicate Novel(targets: seq<Target>, cs: seq<Candidate>, i: nat)
    requires i < |cs|
  {
    && cs[i].valid && (forall t | t in targets :: t.key != cs[i].key)
    && forall j | 0 <= j < i :: !(cs[j].valid && cs[j].key == cs[i].key)
  }

  function Novelties(targets: seq<Target>, cs: seq<Candidate>): nat {
    if cs == [] then 0
    else
      var n := |cs| - 1;
      Novelties(targets, cs[..n]) + if Novel(targets, cs, n) then 1 else 0
  }

  /** Every novel candidate is appended while there are fewer than two thousand targets, and counted as
      dropped from there on. */
  lemma {:induction false} DiscoveryTold(targets: seq<Target>, cs: seq<Candidate>)
    ensures var (ts, known, dropped) := TakeAll(targets, KeysOf(targets), cs);
            && |ts| + dropped == |targets| + Novelties(targets, cs)
            && (dropped > 0 ==> |ts| >= 2000) && (|ts| > |targets| ==> |ts| <= 2000)
            && (forall key :: key in known <==> (exists t :: t in targets && t.key == key)
                                                || exists i :: 0 <= i < |cs| && cs[i].valid && cs[i].key == key)
    decreases |cs|
  {
    if cs == [] {
      forall key ensures key in KeysOf(targets) <==> exists t :: t in targets && t.key == key {}
    } else {
      var n := |cs| - 1;
      DiscoveryTold(targets, cs[..n]);
      OneMoreTold(targets, cs);
    }
  }

  lemma OneMoreTold(targets: seq<Target>, cs: seq<Candidate>)
    requires cs != []
    requires var front := cs[..|cs| - 1]; var (ts, known, dropped) := TakeAll(targets, KeysOf(targets), front);
             && |ts| + dropped == |targets| + Novelties(targets, front)
             && (dropped > 0 ==> |ts| >= 2000) && (|ts| > |targets| ==> |ts| <= 2000)
             && (forall key :: key in known <==> (exists t :: t in targets && t.key == key)
                                                 || exists i :: 0 <= i < |front|
                                                                && front[i].valid && front[i].key == key)
    ensures var (ts, known, dropped) := TakeAll(targets, KeysOf(targets), cs);
            && |ts| + dropped == |targets| + Novelties(targets, cs)
            && (dropped > 0 ==> |ts| >= 2000) && (|ts| > |targets| ==> |ts| <= 2000)
            && (forall key :: key in known <==> (exists t :: t in targets && t.key == key)
                                                || exists i :: 0 <= i < |cs| && cs[i].valid && cs[i].key == key)
  {
    var n := |cs| - 1;
    var front := cs[..n];
    var (ts, known, dropped) := TakeAll(targets, KeysOf(targets), front);
    assert forall i | 0 <= i < n :: front[i] == cs[i];
    assert cs[n].valid ==> (Novel(targets, cs, n) <==> cs[n].key !in known);
  }

  /** No target is tried more than three times in a round. */
  lemma {:induction false} ThreeTries(lanes: seq<Lane>, events: seq<Event>, n: nat, i: nat)
    requires Run(lanes, events) && n < |lanes| && i < |lanes[n].targets|
    ensures lanes[n].targets[i].attempts <= 3
    ensures i >= lanes[n].cursor ==> lanes[n].targets[i].attempts <= 2
  {
    RunOk(lanes, events, n);
    RunTries(lanes, events, n);
  }

  ghost predicate Tries(lane: Lane) {
    forall i | 0 <= i < |lane.targets| :: lane.targets[i].attempts <= 3
  }

  lemma {:induction false} RunTries(lanes: seq<Lane>, events: seq<Event>, n: nat)
    requires Run(lanes, events) && n < |lanes|
    ensures Tries(lanes[n])
  {
    if n == 0 {
      FirstLaneOk(lanes[0].fingerprint);
    } else {
      RunTries(lanes, events, n - 1);
      RunOk(lanes, events, n - 1);
      RunOk(lanes, events, n);
      StepTries(lanes[n - 1], events[n - 1]);
    }
  }

  lemma StepTries(lane: Lane, e: Event)
    requires LaneOk(lane) && Enabled(lane, e) && EventOk(e) && Tries(lane)
    ensures Tries(Step(lane, e))
  {
    var next := Step(lane, e);
    StepOk(lane, e);
    if e.Discovered? {
      var more := Discoveries(lane, e.cs);
    } else if e.Reconfigure? && Extends(lane.fingerprint, e.f) {
      var tail := InitialTargets(e.f)[|lane.fingerprint.queries|..];
      MissingAre(tail, KeysOf(lane.targets));
      var more := Missing(tail, KeysOf(lane.targets));
      forall i | 0 <= i < |more| ensures more[i].attempts == 0 { assert more[i] in more && more[i] in tail; }
    }
  }

  // ---------------------------------------------------------------- interruptions and rounds

  /** Only status and generation may differ. */
  predicate SameWork(a: Lane, b: Lane) {
    && b.targets == a.targets && b.cursor == a.cursor && b.fingerprint == a.fingerprint && b.round == a.round
    && b.truncated == a.truncated
  }

  /** A pause, a lane switched off, an error of the coordinator and a lost tab take the lease away: every
      message sent under it is refused from then on. They leave the work as it is. */
  lemma InterruptionTold(lane: Lane, e: Event)
    requires Enabled(lane, e) && (e.Pause? || e.Disable? || e.Stumble? || e.Recreate?)
    ensures var next := Step(lane, e);
            && SameWork(lane, next) && next.generation == lane.generation + 1 && !Leased(next, lane.generation)
            && next.status == match e
                              case Pause => Status.Paused
                              case Disable => Status.Disabled
                              case Stumble => Waiting
                              case Recreate => if lane.status == Scanning then Waiting else lane.status
  {
  }

  /** A target is started, or put off by the spacing of loads, under a new generation behind a pause or
      a lane switched off, else under the present one. */
  lemma StartTold(lane: Lane, e: Event)
    requires Enabled(lane, e) && (e.Start? || e.Postpone?)
    ensures var next := Step(lane, e);
            && next.generation == (if lane.status in {Status.Paused, Status.Disabled} then lane.generation + 1
                                   else lane.generation)
            && (e.Postpone? ==> SameWork(lane, next) && next.status == Waiting)
            && (e.Start? ==>
                  && next.status == Scanning && OnlyCurrent(lane, next) && next.cursor == lane.cursor
                  && next.targets[lane.cursor] == lane.targets[lane.cursor].(attempted := true)
                  && Leased(next, next.generation))
  {
  }

  predicate Finished(lane: Lane) {
    lane.status in {Whole, Partial}
  }

  /** When each event may happen: work goes on while a target is left in an unfinished round; a failure is
      given only to a target being scanned; only a running lane is paused. A finished round with targets
      comes again when refresh is on or a target is unresolved, one that ended while switched off always;
      a round without a target left is finished as partial. */
  lemma WhenTold(lane: Lane, refresh: bool)
    ensures Enabled(lane, Start) <==> !Finished(lane) && lane.cursor < |lane.targets|
    ensures Enabled(lane, Postpone) <==> Enabled(lane, Start)
    ensures Enabled(lane, Stuck) <==> lane.status == Scanning && lane.cursor < |lane.targets|
    ensures Enabled(lane, Pause) <==> lane.status in {Ready, Waiting, Scanning, Status.Disabled}
    ensures Enabled(lane, Disable) <==> lane.status != Status.Disabled
    ensures Enabled(lane, RunDry) <==> lane.status in {Ready, Waiting, Scanning, Status.Paused}
                                       && lane.cursor >= |lane.targets|
    ensures Enabled(lane, NewRound(refresh)) <==>
              || (lane.status == Status.Disabled && lane.cursor >= |lane.targets|)
              || (Finished(lane) && lane.targets != []
                  && (refresh || exists i :: 0 <= i < |lane.targets| && lane.targets[i].coverage == Unresolved))
  {
  }

  /** A message is heard only under the present lease: of a target being scanned, by its generation, and
      of the kind the target waits for. */
  lemma HeardTold(lane: Lane, generation: nat, limited: bool, url: Url, cs: seq<Candidate>)
    ensures var leased := lane.status == Scanning && lane.cursor < |lane.targets| && generation == lane.generation;
            && (Enabled(lane, Unusable(generation)) <==> leased)
            && (Enabled(lane, SweepDone(generation, limited)) <==> leased && !lane.targets[lane.cursor].selection)
            && (Enabled(lane, Selected(generation, url)) <==> leased && lane.targets[lane.cursor].selection)
            && (Enabled(lane, Discovered(generation, cs)) <==>
                  leased && !lane.targets[lane.cursor].selection && lane.fingerprint.Departments?)
  {
  }

  /** A new round begins at its first target, one round and one generation later, with nothing dropped. */
  lemma RoundTold(lane: Lane, e: Event)
    requires Enabled(lane, e) && (e.NewRound? || e.Restart?)
    ensures var next := Step(lane, e);
            && next.cursor == 0 && next.status == Ready && next.truncated == 0
            && next.generation == lane.generation + 1 && next.round == lane.round + 1
            && next.fingerprint == (if e.Restart? then e.f else lane.fingerprint)
            && forall i | 0 <= i < |next.targets| :: next.targets[i].attempts == 0 && !next.targets[i].attempted
  {
    var before := if e.Restart? then Interrupted(lane) else lane;
    var f := if e.Restart? then e.f else lane.fingerprint;
    var carried := if before.fingerprint == f then Carried(before.targets) else [];
    CarriedFresh(before.targets);
    MissingFrom(InitialTargets(f), KeysOf(carried));
    var targets := Step(lane, e).targets;
    forall i | 0 <= i < |targets| ensures targets[i].attempts == 0 && !targets[i].attempted {
      assert targets[i] in carried || targets[i] in InitialTargets(f);
    }
  }

  lemma {:induction false} CarriedFresh(targets: seq<Target>)
    ensures forall t | t in Carried(targets) :: t.attempts == 0 && !t.attempted
    decreases |targets|
  {
    if targets != [] { CarriedFresh(targets[..|targets| - 1]); }
  }

  lemma {:induction false} MissingFrom(targets: seq<Target>, keys: set<Key>)
    ensures forall t | t in Missing(targets, keys) :: t in targets
    decreases |targets|
  {
    if targets != [] { MissingFrom(targets[..|targets| - 1], keys); }
  }
}
