/** Round-robin fairness of fair claims, over whole runs. */
module ChannelFairness {
  import opened Basics
  import opened ChannelTables
  import opened Provider
  import opened Ranking
  import opened ChannelOps
  import opened ChannelInvariant
  import opened ChannelClaim
  import opened ChannelRun
  import opened ChannelTheorems

  lemma {:induction false} RecordTurns(db: Db, items: seq<Item>, now: Time, seedOnly: bool)
    ensures RecordAll(db, items, now, seedOnly).turns == db.turns
  {
    if items != [] {
      RecordTurns(db, items[..|items| - 1], now, seedOnly);
    }
  }

  lemma {:induction false} RetireTurns(db: Db, passes: seq<Pass>)
    ensures RetireAll(db, passes).turns == db.turns
  {
    if passes != [] {
      RetireTurns(db, passes[..|passes| - 1]);
    }
  }

  /** The route a claim returned. */
  function Returned(e: Event): Route
    requires e.Claim?
  {
    e.pick.first.route
  }

  /** A claim moves its route past every other; the rest stay. */
  lemma ClaimTurn(s: System, wire: Wire, q: Query, passes: seq<Pass>, pick: Pass, token: Token)
    requires SysInv(s) && Enabled(s, wire, Claim(q, passes, pick, token))
    ensures var turns := Step(s, wire, Claim(q, passes, pick, token)).db.turns;
            && turns == s.db.turns[pick.first.route := NextTurn(s.db.turns)]
  {
    RetireTurns(Expire(s.db, s.now), passes);
    SweepKeeps(s, q, wire, passes);
    LeaseKeeps(Swept(s, passes), s.now, q, wire, pick, token);
    LeaseTurns(Swept(s, passes), pick, token, s.now);
  }

  lemma LeaseTurns(db: Db, pick: Pass, token: Token, now: Time)
    requires pick.first in db.jobs && pick.rows != [] && Known(db, pick.rows)
    ensures Lease(db, pick, token, now).turns == db.turns[pick.first.route := NextTurn(db.turns)]
  {
  }

  lemma NewTurnIsLast(turns: map<Route, nat>, route: Route)
    ensures var next := turns[route := NextTurn(turns)];
            && (forall r :: LastClaim(turns, r) < LastClaim(next, route))
            && (forall r :: r != route ==> LastClaim(next, r) == LastClaim(turns, r))
  {
  }

  lemma SettledTurns(db: Db, b: Batch, reply: Reply, now: Time, messageId: string, delay: Time, reason: Reason)
    requires ForeignKeys(db)
    ensures Settled(db, b, reply, now, messageId, delay, reason).turns == db.turns
  {
    match SettlementFor(reply, b.attempts)
    case SettleSent => FinishTurns(db, b, Sent, Some(messageId), NoReason, now);
    case SettleSplit => SplitTurns(db, b, now);
    case SettleFailed => FinishTurns(db, b, Failed, None, reason, now);
    case SettleRetry(count, ambiguous) => RetryTurns(db, b, now, delay, reason, count, ambiguous);
  }

  lemma FinishTurns(db: Db, b: Batch, state: JobState, messageId: Option<string>, reason: Reason, now: Time)
    ensures FinishBatch(db, b, state, messageId, reason, now).0.turns == db.turns
  {
  }

  lemma RetryTurns(db: Db, b: Batch, now: Time, delay: Time, reason: Reason, count: bool, ambiguous: bool)
    ensures RetryBatch(db, b, now, delay, reason, count, ambiguous).0.turns == db.turns
  {
  }

  lemma SplitTurns(db: Db, b: Batch, now: Time)
    requires ForeignKeys(db)
    ensures SplitRejected(db, b, now).0.turns == db.turns
  {
    if !Owned(db, b) {
      DisownTurns(db, b);
    } else if !AllWanted(db, b.id, now) {
      assert Cancel(db, b.id, Some(b.token)).turns == db.turns;
    }
  }

  lemma DisownTurns(db: Db, b: Batch)
    ensures Disown(db, b).turns == db.turns
  {
  }

  lemma ValidateTurns(db: Db, b: Batch, now: Time)
    requires ForeignKeys(db)
    ensures ValidateDispatch(db, b, now).0.turns == db.turns
  {
  }

  lemma HandlingTurns(s: System, wire: Wire, e: Event)
    requires Inv(s.db) && Enabled(s, wire, e) && (e.Validate? || e.Stop? || e.NoDestination? || e.Settle?)
    ensures Step(s, wire, e).db.turns == s.db.turns
  {
    var b := s.flights[e.t].batch;
    match e
    case Validate(_) => ValidateTurns(s.db, b, s.now);
    case Stop(_) => RetryTurns(s.db, b, s.now, 0.01, Other("stopping"), false, false);
    case NoDestination(_) => FinishTurns(s.db, b, Failed, None, Other("missing_destination"), s.now);
    case Settle(_, messageId, delay, reason) =>
      SettledTurns(s.db, b, s.flights[e.t].stage.reply, s.now, messageId, delay, reason);
  }

  /** No other event moves a turn. */
  lemma OtherTurns(s: System, wire: Wire, e: Event)
    requires SysInv(s) && Enabled(s, wire, e) && !e.Claim?
    ensures Step(s, wire, e).db.turns == s.db.turns
  {
    if e.Validate? || e.Stop? || e.NoDestination? || e.Settle? {
      HandlingTurns(s, wire, e);
    } else if e.Intake? {
      RecordTurns(s.db, e.items, s.now, e.seedOnly);
    } else if e.ClaimNothing? {
      RetireTurns(Expire(s.db, s.now), e.passes);
    }
  }

  lemma TurnStep(s: System, wire: Wire, e: Event)
    requires SysInv(s) && Enabled(s, wire, e)
    ensures Moves(e, s.db.turns, Step(s, wire, e).db.turns)
  {
    if e.Claim? {
      ClaimTurn(s, wire, e.q, e.passes, e.pick, e.token);
      NewTurnIsLast(s.db.turns, Returned(e));
    } else {
      OtherTurns(s, wire, e);
    }
  }

  /** The paid route has a claimable, deliverable envelope when the claim begins. */
  ghost predicate Waiting(s: System, e: Event, route: Route)
    requires e.Claim?
  {
    !route.Free? && exists k :: Claimable(Expire(s.db, s.now), s.now, e.q, route, k)
  }

  lemma FairRank(db: Db, now: Time, q: Query, first: JobId, k: JobId)
    requires q.fair && Lowest(Candidates(db, now, q), first) && k in db.jobs && Candidate(db, k, now, q)
    requires !k.route.Free?
    ensures !first.route.Free? && LastClaim(db.turns, first.route) <= LastClaim(db.turns, k.route)
  {
    var ranks := Candidates(db, now, q);
    assert k in ranks && !Less(ranks[k], ranks[first]);
  }

  lemma SweptKeepsRow(s: System, wire: Wire, q: Query, passes: seq<Pass>, route: Route, k: JobId)
    requires Inv(s.db) && ClaimRuns(s, q, wire, passes)
    requires Claimable(Expire(s.db, s.now), s.now, q, route, k)
    ensures Claimable(Swept(s, passes), s.now, q, route, k)
    ensures Swept(s, passes).turns == s.db.turns
  {
    ExpireKeeps(s.db, s.now);
    RefusalsSpare(Expire(s.db, s.now), s.now, q, wire, passes, route, k);
  }

  /** A fair claim returns a paid route whose turn came no later than any waiting one. */
  lemma FairPick(s: System, wire: Wire, e: Event, route: Route)
    requires SysInv(s) && Enabled(s, wire, e) && FairClaim(e) && Waiting(s, e, route)
    ensures !Returned(e).Free?
    ensures LastClaim(s.db.turns, Returned(e)) <= LastClaim(s.db.turns, route)
  {
    var k :| Claimable(Expire(s.db, s.now), s.now, e.q, route, k);
    SweptKeepsRow(s, wire, e.q, e.passes, route, k);
    FairRank(Swept(s, e.passes), s.now, e.q, e.pick.first, k);
  }

  // ---------------------------------------------------------------- turns over a run

  function TurnsOf(states: seq<System>): (turns: seq<map<Route, nat>>)
    ensures |turns| == |states| && forall i | 0 <= i < |states| :: turns[i] == states[i].db.turns
  {
    seq(|states|, i requires 0 <= i < |states| => states[i].db.turns)
  }

  /** Only claims move turns, each its own route past all others. */
  ghost predicate Moves(e: Event, before: map<Route, nat>, after: map<Route, nat>) {
    if e.Claim? then
      && (forall r :: LastClaim(before, r) < LastClaim(after, Returned(e)))
      && (forall r :: r != Returned(e) ==> LastClaim(after, r) == LastClaim(before, r))
    else after == before
  }

  ghost predicate Moved(turns: seq<map<Route, nat>>, events: seq<Event>) {
    |turns| == |events| + 1 && forall i | 0 <= i < |events| :: Moves(events[i], turns[i], turns[i + 1])
  }

  lemma RunMoves(wire: Wire, states: seq<System>, events: seq<Event>)
    requires Run(wire, states, events)
    ensures Moved(TurnsOf(states), events)
  {
    var turns := TurnsOf(states);
    forall i | 0 <= i < |events| ensures Moves(events[i], turns[i], turns[i + 1]) {
      RunKeeps(wire, states, events, i);
      assert Next(states[i], wire, events[i], states[i + 1]);
      TurnStep(states[i], wire, events[i]);
    }
  }

  /** No claim from event i up to event j returned the route. */
  ghost predicate Unreturned(events: seq<Event>, i: nat, j: nat, r: Route)
    requires j <= |events|
  {
    forall m | i <= m < j && events[m].Claim? :: Returned(events[m]) != r
  }

  /** Turn numbers only grow, and the turn of a route that no claim returns stays where it is. */
  lemma {:induction false} TurnsGrow(turns: seq<map<Route, nat>>, events: seq<Event>, i: nat, j: nat, r: Route)
    requires Moved(turns, events) && i <= j < |turns|
    ensures LastClaim(turns[i], r) <= LastClaim(turns[j], r)
    ensures Unreturned(events, i, j, r) ==> LastClaim(turns[i], r) == LastClaim(turns[j], r)
    decreases j - i
  {
    if i < j {
      TurnsGrow(turns, events, i, j - 1, r);
      assert Moves(events[j - 1], turns[j - 1], turns[j]);
    }
  }

  /** A claimed route stays behind one that no claim has returned since. */
  lemma PassedBy(turns: seq<map<Route, nat>>, events: seq<Event>, i: nat, j: nat, route: Route)
    requires Moved(turns, events) && i < j < |turns| && events[i].Claim? && Unreturned(events, i, j, route)
    ensures LastClaim(turns[j], route) < LastClaim(turns[j], Returned(events[i]))
  {
    assert Moves(events[i], turns[i], turns[i + 1]);
    TurnsGrow(turns, events, i + 1, j, Returned(events[i]));
    TurnsGrow(turns, events, i + 1, j, route);
  }

  /** A fair claim of a run returns no route that was claimed after a waiting one. */
  lemma FairPickInRun(wire: Wire, states: seq<System>, events: seq<Event>, j: nat, route: Route)
    requires Run(wire, states, events) && j < |events| && FairClaim(events[j])
    requires Waiting(states[j], events[j], route)
    ensures LastClaim(states[j].db.turns, Returned(events[j])) <= LastClaim(states[j].db.turns, route)
  {
    RunKeeps(wire, states, events, j);
    assert Next(states[j], wire, events[j], states[j + 1]);
    FairPick(states[j], wire, events[j], route);
  }

  /** While a paid route waits unclaimed, a fair claim never returns a route that any claim
      has already returned since. */
  lemma NoOvertaking(wire: Wire, states: seq<System>, events: seq<Event>, i: nat, j: nat, route: Route)
    requires Run(wire, states, events) && i < j < |events|
    requires events[i].Claim? && FairClaim(events[j]) && Waiting(states[j], events[j], route)
    requires Unreturned(events, i, j, route)
    ensures Returned(events[j]) != Returned(events[i])
  {
    RunMoves(wire, states, events);
    PassedBy(TurnsOf(states), events, i, j, route);
    FairPickInRun(wire, states, events, j, route);
  }

  ghost predicate Overtaken(states: seq<System>, events: seq<Event>, at: seq<nat>, route: Route)
    requires |states| == |events| + 1
  {
    && (forall x | 0 <= x < |at| :: at[x] < |events| && FairClaim(events[at[x]])
                                    && Waiting(states[at[x]], events[at[x]], route))
    && (forall x, y | 0 <= x < y < |at| :: at[x] < at[y])
    && (forall x, m | 0 <= x < |at| && at[0] <= m <= at[x] && m < |events| && events[m].Claim? ::
          Returned(events[m]) != route)
  }

  lemma OvertakerIsOther(states: seq<System>, events: seq<Event>, at: seq<nat>, route: Route, x: nat)
    requires |states| == |events| + 1 && Overtaken(states, events, at, route) && x < |at|
    ensures events[at[x]].Claim? && Returned(events[at[x]]) != route
  {
    assert at[0] <= at[x] by {
      if x > 0 { assert at[0] < at[x]; }
    }
  }

  lemma OvertakenUnreturned(states: seq<System>, events: seq<Event>, at: seq<nat>, route: Route, x: nat, y: nat)
    requires |states| == |events| + 1 && Overtaken(states, events, at, route) && x < y < |at|
    ensures at[y] < |events| && Unreturned(events, at[x], at[y], route)
  {
    assert at[0] <= at[x] by {
      if x > 0 { assert at[0] < at[x]; }
    }
  }

  lemma OvertakersDiffer(wire: Wire, states: seq<System>, events: seq<Event>, at: seq<nat>, route: Route,
                         x: nat, y: nat)
    requires Run(wire, states, events) && Overtaken(states, events, at, route) && x < y < |at|
    ensures Returned(events[at[x]]) != Returned(events[at[y]])
  {
    OvertakerIsOther(states, events, at, route, x);
    OvertakenUnreturned(states, events, at, route, x, y);
    NoOvertaking(wire, states, events, at[x], at[y], route);
  }

  /** A waiting paid route is served within as many fair claims as there are paid routes, even
      with priority claims in between: fewer can pass it by. */
  lemma ServedWithinOneRound(wire: Wire, states: seq<System>, events: seq<Event>, at: seq<nat>,
                             route: Route, paid: set<Route>)
    requires Run(wire, states, events) && Overtaken(states, events, at, route)
    requires route in paid
    requires forall x | 0 <= x < |at| :: Returned(events[at[x]]) in paid
    ensures |at| < |paid|
  {
    var routes := seq(|at|, x requires 0 <= x < |at| => Returned(events[at[x]]));
    forall x, y | 0 <= x < y < |at| ensures routes[x] != routes[y] {
      OvertakersDiffer(wire, states, events, at, route, x, y);
    }
    forall x | 0 <= x < |at| ensures routes[x] in paid - {route} {
      OvertakerIsOther(states, events, at, route, x);
    }
    AllIn(routes, paid - {route});
    DistinctFits(routes, paid - {route});
  }

  lemma AllIn<T>(s: seq<T>, all: set<T>)
    requires forall x | 0 <= x < |s| :: s[x] in all
    ensures forall r | r in s :: r in all
  {
  }

  lemma {:induction false} DistinctFits<T>(s: seq<T>, all: set<T>)
    requires forall x, y | 0 <= x < y < |s| :: s[x] != s[y]
    requires forall x | x in s :: x in all
    ensures |s| <= |all|
  {
    if s != [] {
      var n := |s| - 1;
      assert forall x | x in s[..n] :: x in all - {s[n]};
      DistinctFits(s[..n], all - {s[n]});
    }
  }
}
