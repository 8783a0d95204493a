/** The lane as it runs: targets, cursor and status updated in place. A message from a superseded
    lease changes nothing; every other call is a step of the history. */
module LaneScanner {
  import opened Basics
  import opened LaneTables
  import opened LaneRun
  import opened LaneTheorems

  class AuxiliaryLane {
    var fingerprint: Fingerprint
    var targets: seq<Target>
    var cursor: nat
    var status: Status
    var generation: nat
    var round: nat
    var truncated: nat

    function Now(): Lane
      reads this
    {
      Lane(fingerprint, targets, cursor, status, generation, round, truncated)
    }

    ghost predicate Valid()
      reads this
    {
      LaneOk(Now())
    }

    constructor (f: Fingerprint)
      requires Normal(f)
      ensures Valid() && Now() == FreshLane(None, f)
    {
      fingerprint, targets, cursor, status := f, Missing(InitialTargets(f), {}), 0, Ready;
      generation, round, truncated := 1, 1, 0;
      new;
      FirstLaneOk(f);
      assert KeysOf([]) == {};
      assert [] + Missing(InitialTargets(f), {}) == Missing(InitialTargets(f), {});
    }

    method MoveOn(v: Verdict)
      requires cursor < |targets|
      modifies this
      ensures Now() == Advance(old(Now()), v)
    {
      targets := targets[cursor := Judged(targets[cursor], v)];
      cursor := cursor + 1;
      generation := generation + 1;
      if cursor >= |targets| {
        status := if truncated > 0 || AnyUnresolved(targets) then Partial else Whole;
      } else {
        status := Waiting;
      }
    }

    method Failed()
      requires cursor < |targets|
      modifies this
      ensures Now() == Fail(old(Now()))
    {
      var attempts := targets[cursor].attempts + 1;
      targets := targets[cursor := targets[cursor].(attempts := attempts, coverage := Unresolved)];
      if attempts > RETRIES {
        MoveOn(GaveUp);
      } else {
        generation := generation + 1;
        status := Waiting;
      }
    }

    method ReportUnusable(lease: nat) returns (accepted: bool)
      requires Valid()
      modifies this
      ensures Valid() && accepted == Enabled(old(Now()), Unusable(lease))
      ensures Now() == if accepted then Step(old(Now()), Unusable(lease)) else old(Now())
    {
      accepted := Leased(Now(), lease);
      if accepted {
        StepOk(Now(), Unusable(lease));
        Failed();
      }
    }

    method ReportSweep(lease: nat, limited: bool) returns (accepted: bool)
      requires Valid()
      modifies this
      ensures Valid() && accepted == Enabled(old(Now()), SweepDone(lease, limited))
      ensures Now() == if accepted then Step(old(Now()), SweepDone(lease, limited)) else old(Now())
    {
      accepted := Leased(Now(), lease) && !targets[cursor].selection;
      if accepted {
        StepOk(Now(), SweepDone(lease, limited));
        MoveOn(if limited then Limited else Covered);
      }
    }

    method FindTwin(url: Url) returns (twin: Option<nat>)
      ensures twin == FirstTwin(Now(), url, 0)
    {
      var i := 0;
      while i < |targets|
        invariant 0 <= i <= |targets| && FirstTwin(Now(), url, 0) == FirstTwin(Now(), url, i)
      {
        if IsTwin(Now(), i, url) { return Some(i); }
        i := i + 1;
      }
      twin := None;
    }

    method ReportSelected(lease: nat, url: Url) returns (accepted: bool)
      requires Valid()
      modifies this
      ensures Valid() && accepted == Enabled(old(Now()), Selected(lease, url))
      ensures Now() == if accepted then Step(old(Now()), Selected(lease, url)) else old(Now())
    {
      accepted := Leased(Now(), lease) && targets[cursor].selection;
      if accepted {
        StepOk(Now(), Selected(lease, url));
        var twin := FindTwin(url);
        if twin.Some? {
          MoveOn(SameAs(targets[twin.value].key));
        } else {
          targets := targets[cursor := targets[cursor].(url := url, bound := Some(url), selection := false)];
        }
      }
    }

    /** Append the candidates that are valid and new while there is room; count those left out. */
    method ReportDiscovered(lease: nat, cs: seq<Candidate>) returns (accepted: bool)
      requires Valid()
      modifies this
      ensures Valid() && accepted == Enabled(old(Now()), Discovered(lease, cs))
      ensures Now() == if accepted then Step(old(Now()), Discovered(lease, cs)) else old(Now())
    {
      accepted := Leased(Now(), lease) && fingerprint.Departments? && !targets[cursor].selection;
      if !accepted { return; }
      StepOk(Now(), Discovered(lease, cs));
      var listed := if |cs| > MAX_TARGETS + 1 then cs[..MAX_TARGETS + 1] else cs;
      AppendCandidates(listed, |cs| - |listed|);
    }

    method AppendCandidates(listed: seq<Candidate>, unlisted: nat)
      modifies this`targets, this`truncated
      ensures var (ts, _, dropped) := TakeAll(old(targets), KeysOf(old(targets)), listed);
              targets == ts && truncated == old(truncated) + dropped + unlisted
    {
      ghost var start := targets;
      var known := KeysOf(targets);
      ghost var first := known;
      var dropped: nat := 0;
      for i := 0 to |listed|
        invariant TakeAll(start, first, listed[..i]) == (targets, known, dropped) && truncated == old(truncated)
      {
        assert listed[..i + 1][..i] == listed[..i];
        var c := listed[i];
        if c.valid && c.key !in known {
          known := known + {c.key};
          if |targets| >= MAX_TARGETS {
            dropped := dropped + 1;
          } else {
            targets := targets + [NewTarget(c.key, c.url, true)];
          }
        }
      }
      assert listed[..|listed|] == listed;
      truncated := truncated + dropped + unlisted;
    }

    /** The coordinator's own failure, also bounded by the retries. */
    method GiveAttemptUp()
      requires Valid() && Enabled(Now(), Stuck)
      modifies this
      ensures Valid() && Now() == Step(old(Now()), Stuck)
    {
      StepOk(Now(), Stuck);
      Failed();
    }

    /** The unresolved targets, their attempts cleared. */
    method CarryUnresolved() returns (carried: seq<Target>)
      ensures carried == Carried(targets)
    {
      carried := [];
      for i := 0 to |targets|
        invariant carried == Carried(targets[..i])
      {
        assert targets[..i + 1][..i] == targets[..i];
        if targets[i].coverage.Unresolved? && targets[i].duplicateOf.None? {
          carried := carried + [Cleared(targets[i])];
        }
      }
      assert targets[..|targets|] == targets;
    }

    /** Carry what is unresolved under the same configuration, then add the missing initial targets. */
    method BeginRound(f: Fingerprint)
      requires Valid() && Normal(f)
      modifies this
      ensures Valid() && Now() == FreshLane(Some(old(Now())), f)
    {
      FreshLaneOk(Now(), f);
      var carried := [];
      if fingerprint == f { carried := CarryUnresolved(); }
      targets := carried + Missing(InitialTargets(f), KeysOf(carried));
      fingerprint, cursor, status, truncated := f, 0, Ready, 0;
      generation, round := generation + 1, round + 1;
    }

    /** The current target is started, under a new generation after a pause. */
    method StartTarget() returns (started: bool)
      requires Valid()
      modifies this
      ensures Valid() && started == Enabled(old(Now()), Start)
      ensures Now() == if started then Step(old(Now()), Start) else old(Now())
      ensures started ==> Leased(Now(), generation) && targets[cursor].attempted
    {
      started := !RoundOver(Now()) && cursor < |targets|;
      if started {
        StepOk(Now(), Start);
        if status.Paused? || status.Disabled? { generation := generation + 1; }
        status := Scanning;
        targets := targets[cursor := targets[cursor].(attempted := true)];
      }
    }

    method BreakOff()
      modifies this`targets
      ensures Now() == Interrupted(old(Now()))
    {
      if cursor < |targets| && targets[cursor].attempted && !targets[cursor].coverage.Complete? {
        targets := targets[cursor := targets[cursor].(coverage := Unresolved)];
      }
    }

    /** The user's restart: what was started is left unresolved, and a new round begins at once. */
    method RestartRound(f: Fingerprint)
      requires Valid() && Normal(f)
      modifies this
      ensures Valid() && Now() == Step(old(Now()), Restart(f))
    {
      InterruptedOk(Now());
      BreakOff();
      BeginRound(f);
    }

    /** A changed keyword list: extend the running round when it only grew, else start over. */
    method ApplyConfiguration(f: Fingerprint)
      requires Valid() && Normal(f) && f != fingerprint
      modifies this
      ensures Valid() && Now() == Step(old(Now()), Reconfigure(f))
    {
      if !Extends(fingerprint, f) {
        BeginRound(f);
        return;
      }
      AppendQueriesOk(Now(), f);
      AppendKeywords(f);
    }

    method AppendKeywords(f: Fingerprint)
      requires Extends(fingerprint, f)
      modifies this`targets, this`fingerprint, this`status
      ensures Now() == AppendQueries(old(Now()), f)
    {
      targets := targets + Missing(InitialTargets(f)[|fingerprint.queries|..], KeysOf(targets));
      fingerprint := f;
      if (status.Whole? || status.Partial?) && cursor < |targets| { status := Waiting; }
    }
  }
}
