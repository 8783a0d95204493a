/** Finite paths of a transition relation: how a procedure's effect is shown to be one that the
    runs of its machine allow. */
module Paths {

  ghost predicate Follows<S(!new), E(!new)>(next: (S, E, S) -> bool, s: S, events: seq<E>, t: S)
    decreases |events|
  {
    if events == [] then t == s
    else exists u :: next(s, events[0], u) && Follows(next, u, events[1..], t)
  }

  /** Some sequence of steps leads from s to t. */
  ghost predicate Leads<S(!new), E(!new)>(next: (S, E, S) -> bool, s: S, t: S) {
    exists events :: Follows(next, s, events, t)
  }

  lemma LeadsSelf<S(!new), E(!new)>(next: (S, E, S) -> bool, s: S)
    ensures Leads(next, s, s)
  {
    assert Follows(next, s, [], s);
  }

  lemma {:induction false} FollowsJoin<S(!new), E(!new)>(next: (S, E, S) -> bool, s: S, events: seq<E>, t: S,
          more: seq<E>, u: S)
    requires Follows(next, s, events, t) && Follows(next, t, more, u)
    ensures Follows(next, s, events + more, u)
    decreases |events|
  {
    if events == [] {
      assert events + more == more;
    } else {
      var v :| next(s, events[0], v) && Follows(next, v, events[1..], t);
      FollowsJoin(next, v, events[1..], t, more, u);
      assert (events + more)[1..] == events[1..] + more;
    }
  }

  lemma LeadsJoin<S(!new), E(!new)>(next: (S, E, S) -> bool, s: S, t: S, u: S)
    requires Leads(next, s, t) && Leads(next, t, u)
    ensures Leads(next, s, u)
  {
    var events :| Follows(next, s, events, t);
    var more :| Follows(next, t, more, u);
    FollowsJoin(next, s, events, t, more, u);
  }

  lemma LeadsStep<S(!new), E(!new)>(next: (S, E, S) -> bool, s: S, t: S, e: E, u: S)
    requires Leads(next, s, t) && next(t, e, u)
    ensures Leads(next, s, u)
  {
    assert Follows(next, u, [], u);
    assert [e][1..] == [];
    assert Follows(next, t, [e], u);
    LeadsJoin(next, s, t, u);
  }

  ghost predicate Trace<S(!new), E(!new)>(next: (S, E, S) -> bool, states: seq<S>, events: seq<E>) {
    && |states| == |events| + 1
    && forall i | 0 <= i < |events| :: next(states[i], events[i], states[i + 1])
  }

  lemma {:induction false} TraceFollows<S(!new), E(!new)>(next: (S, E, S) -> bool, states: seq<S>, events: seq<E>,
                                                          path: seq<E>, t: S)
    returns (longer: seq<S>)
    requires Trace(next, states, events) && Follows(next, states[|events|], path, t)
    ensures Trace(next, longer, events + path) && longer[|events + path|] == t && longer[0] == states[0]
    decreases |path|
  {
    if path == [] {
      longer := states;
      assert events + path == events;
    } else {
      var u :| next(states[|events|], path[0], u) && Follows(next, u, path[1..], t);
      var extended, more := states + [u], events + [path[0]];
      forall i | 0 <= i < |more| ensures next(extended[i], more[i], extended[i + 1]) {
        if i < |events| { assert extended[i] == states[i] && extended[i + 1] == states[i + 1]; }
      }
      longer := TraceFollows(next, extended, more, path[1..], t);
      assert more + path[1..] == events + path;
    }
  }

  /** What a path leads to from the end of a trace is the end of a longer one. */
  lemma TraceLeads<S(!new), E(!new)>(next: (S, E, S) -> bool, states: seq<S>, events: seq<E>, t: S)
    returns (longer: seq<S>, more: seq<E>)
    requires Trace(next, states, events) && Leads(next, states[|events|], t)
    ensures Trace(next, longer, more) && longer[|more|] == t && longer[0] == states[0]
  {
    var path :| Follows(next, states[|events|], path, t);
    longer := TraceFollows(next, states, events, path, t);
    more := events + path;
  }

  /** Histories that only grow from one state to the next only grow. */
  lemma {:induction false} PrefixChain<T>(histories: seq<seq<T>>, i: nat, j: nat)
    requires forall k | 0 <= k < |histories| - 1 :: histories[k] <= histories[k + 1]
    requires i <= j < |histories|
    ensures histories[i] <= histories[j]
    decreases j - i
  {
    if i < j {
      PrefixChain(histories, i, j - 1);
      assert histories[j - 1] <= histories[j - 1 + 1];
    }
  }
}
