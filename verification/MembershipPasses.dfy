/** Passes capped by the backlog refine one uncapped pass. */
module MembershipPasses {
  import opened Basics
  import opened Ranking
  import opened MembershipTables

  /** Everybody the first tick owes a celebration. */
  function OwedSet(db: Db, now: Time): set<UserId> {
    set u | u in db.scan && Owed(db.members, db.cooldowns, db.baseline, u, db.scan[u], now)
  }

  function CelebrationOf(db: Db, u: UserId): Celebration
    requires u in db.scan
  {
    Celebration(u, db.scan[u], Upgrades(db.members, u, db.scan[u]))
  }

  // ---------------------------------------------------------------- one pass, member by member

  /** Members of the order that are not in it yet, or were left out, are as they were. */
  ghost predicate Untouched(p: Progress, q: Progress, u: UserId) {
    && (u in q.members <==> u in p.members) && (u in p.members ==> q.members[u] == p.members[u])
    && forall t :: ((u, t) in q.cooldowns <==> (u, t) in p.cooldowns)
                   && ((u, t) in p.cooldowns ==> q.cooldowns[(u, t)] == p.cooldowns[(u, t)])
  }

  lemma {:induction false} OthersUntouched(p: Progress, order: seq<UserId>, scan: map<UserId, Tier>, baseline: bool,
                                           now: Time, cap: Option<nat>, u: UserId)
    requires (forall o | o in order :: o in scan) && u !in order
    ensures Untouched(p, VisitAll(p, order, scan, baseline, now, cap), u)
    decreases |order|
  {
    if order != [] {
      var n := |order| - 1;
      assert order[n] in order;
      OthersUntouched(p, order[..n], scan, baseline, now, cap, u);
    }
  }

  function Made(p: Progress): set<UserId> {
    set c | c in p.made :: c.user
  }

  /** A member after a pass: applied, or owed and left as before. */
  ghost predicate MemberOutcome(db: Db, u: UserId, p: Progress, now: Time) {
    && u in db.scan
    && if u in Made(p) then u in OwedSet(db, now) && u in p.members && p.members[u] == db.scan[u]
       else if u in OwedSet(db, now) then !p.complete && Untouched(Begin(db, 0), p, u)
       else u in p.members && p.members[u] == db.scan[u]
  }

  /** After a pass every member is applied, or owed and left as it was; celebrations are exactly
      those of owed members that were applied. */
  ghost predicate Outcome(db: Db, order: seq<UserId>, p: Progress, now: Time) {
    && (forall u | u in order :: MemberOutcome(db, u, p, now))
    && (forall c | c in p.made :: c.user in order && c == CelebrationOf(db, c.user))
    && (forall i, j | 0 <= i < j < |p.made| :: p.made[i].user != p.made[j].user)
    && (!p.complete ==> exists u :: u in order && u in OwedSet(db, now) && u !in Made(p))
  }

  /** What one visit does: nothing but leave the member out, or apply it. */
  lemma VisitMade(db: Db, u: UserId, p: Progress, now: Time, cap: Option<nat>)
    requires u in db.scan && Untouched(Begin(db, 0), p, u) && u !in Made(p)
    ensures var q := Visit(p, u, db.scan[u], db.baseline, now, cap);
            && (q.made == p.made || (q.made == p.made + [CelebrationOf(db, u)] && u in OwedSet(db, now)))
            && Made(q) == (if q.made == p.made then Made(p) else Made(p) + {u})
            && (q.complete ==> p.complete)
            && (p.complete && !q.complete ==> u in OwedSet(db, now) && q.made == p.made)
            && MemberOutcome(db, u, q, now)
  {
    assert Owed(p.members, p.cooldowns, db.baseline, u, db.scan[u], now) <==> u in OwedSet(db, now);
    var q := Visit(p, u, db.scan[u], db.baseline, now, cap);
    if q.made != p.made { assert Made(q) == Made(p) + {u}; }
  }

  lemma VisitOthers(db: Db, u: UserId, p: Progress, now: Time, cap: Option<nat>, o: UserId)
    requires u in db.scan && o != u && MemberOutcome(db, o, p, now) && Untouched(Begin(db, 0), p, u) && u !in Made(p)
    ensures MemberOutcome(db, o, Visit(p, u, db.scan[u], db.baseline, now, cap), now)
  {
    VisitMade(db, u, p, now, cap);
  }

  lemma VisitOutcome(db: Db, order: seq<UserId>, u: UserId, p: Progress, now: Time, cap: Option<nat>)
    requires Outcome(db, order, p, now) && u !in order && u in db.scan && Untouched(Begin(db, 0), p, u)
    ensures Outcome(db, order + [u], Visit(p, u, db.scan[u], db.baseline, now, cap), now)
  {
    var q := Visit(p, u, db.scan[u], db.baseline, now, cap);
    VisitMade(db, u, p, now, cap);
    forall o | o in order + [u] ensures MemberOutcome(db, o, q, now) {
      if o != u { VisitOthers(db, u, p, now, cap, o); }
    }
    if !q.complete {
      if p.complete {
        assert u in order + [u] && u in OwedSet(db, now) && u !in Made(q);
      } else {
        var o :| o in order && o in OwedSet(db, now) && o !in Made(p);
        assert o in order + [u] && o !in Made(q);
      }
    }
  }

  lemma {:induction false} VisitAllOutcome(db: Db, order: seq<UserId>, pending: nat, now: Time, cap: Option<nat>)
    requires Distinct(order) && forall u | u in order :: u in db.scan
    ensures Outcome(db, order, VisitAll(Begin(db, pending), order, db.scan, db.baseline, now, cap), now)
    decreases |order|
  {
    if order != [] {
      var n := |order| - 1;
      VisitAllOutcome(db, order[..n], pending, now, cap);
      OthersUntouched(Begin(db, pending), order[..n], db.scan, db.baseline, now, cap, order[n]);
      VisitOutcome(db, order[..n], order[n], VisitAll(Begin(db, pending), order[..n], db.scan, db.baseline, now, cap),
                   now, cap);
      assert order[..n] + [order[n]] == order;
    }
  }

  lemma {:induction false} UncappedCompletes(p: Progress, order: seq<UserId>, scan: map<UserId, Tier>,
          baseline: bool, now: Time)
    requires p.complete && forall u | u in order :: u in scan
    ensures VisitAll(p, order, scan, baseline, now, None).complete
    decreases |order|
  {
    if order != [] { UncappedCompletes(p, order[..|order| - 1], scan, baseline, now); }
  }

  // ---------------------------------------------------------------- several passes

  datatype Turn = Turn(now: Time, pending: nat, order: seq<UserId>)

  /** Ticks over one completed scan: all but the last are cut short by the backlog. */
  ghost predicate Passes(dbs: seq<Db>, turns: seq<Turn>, results: seq<Progress>) {
    && |turns| == |results| && |dbs| == |turns| + 1
    && (forall i | 0 <= i < |turns| ::
          && OrderOf(turns[i].order, dbs[i].scan)
          && (dbs[i + 1], results[i]) == Pass(dbs[i], turns[i].order, turns[i].pending, turns[i].now,
                  Some(MAX_PENDING)))
    && (forall i, j | 0 <= i < j < |turns| :: turns[i].now <= turns[j].now)
    && (forall i | 0 <= i < |turns| - 1 :: !results[i].complete)
  }

  function AllMade(results: seq<Progress>): seq<Celebration> {
    if results == [] then [] else AllMade(results[..|results| - 1]) + results[|results| - 1].made
  }

  /** left: owed at the first tick and not yet celebrated. */
  ghost predicate Midway(first: Db, now: Time, db: Db, left: set<UserId>) {
    && db.scan == first.scan && db.baseline == first.baseline
    && left <= OwedSet(first, now)
    && (forall u | u in left ::
          && (u in db.members <==> u in first.members) && (u in first.members ==> db.members[u] == first.members[u])
          && ((u, db.scan[u]) in db.cooldowns ==>
                (u, db.scan[u]) in first.cooldowns
                && db.cooldowns[(u, db.scan[u])] == first.cooldowns[(u, db.scan[u])]))
  }

  ghost predicate Settled(db: Db, left: set<UserId>) {
    forall u | u in db.scan && u !in left :: u in db.members && db.members[u] == db.scan[u]
  }

  /** What is owed later in the same scan is exactly what is left. */
  lemma OwedIsLeft(first: Db, now: Time, db: Db, left: set<UserId>, later: Time)
    requires Midway(first, now, db, left) && Settled(db, left) && now <= later
    ensures OwedSet(Expire(db, later), later) == left
    ensures forall u | u in left :: u in db.scan && CelebrationOf(Expire(db, later), u) == CelebrationOf(first, u)
  {
    forall u | u in left ensures u in OwedSet(Expire(db, later), later) {
      assert u in OwedSet(first, now);
    }
  }

  lemma StartOwed(first: Db, now: Time)
    ensures OwedSet(Expire(first, now), now) == OwedSet(first, now)
    ensures forall u | u in first.scan :: CelebrationOf(Expire(first, now), u) == CelebrationOf(first, u)
  {
  }

  /** One more pass: what it made leaves the rest owed, everybody else settled. */
  lemma PassStep(first: Db, start: Time, db: Db, left: set<UserId>, t: Turn, cap: Option<nat>)
    requires OrderOf(t.order, db.scan) && Midway(first, start, db, left) && start <= t.now
    requires OwedSet(Expire(db, t.now), t.now) == left
    requires forall u | u in left :: u in db.scan && CelebrationOf(Expire(db, t.now), u) == CelebrationOf(first, u)
    ensures var (next, p) := Pass(db, t.order, t.pending, t.now, cap);
            && Made(p) <= left
            && (forall c | c in p.made :: c.user in first.scan && c == CelebrationOf(first, c.user))
            && (forall i, j | 0 <= i < j < |p.made| :: p.made[i].user != p.made[j].user)
            && (p.complete ==> Made(p) == left && next.members == db.scan)
            && (!p.complete ==> Midway(first, start, next, left - Made(p)) && Settled(next, left - Made(p)))
  {
    var current := Expire(db, t.now);
    VisitAllOutcome(current, t.order, t.pending, t.now, cap);
    var p := Pass(db, t.order, t.pending, t.now, cap).1;
    PassMakes(first, current, left, t, p);
    if p.complete {
      CompletePass(current, t.order, p, t.now);
    } else {
      PartialPass(first, start, db, left, t, p);
    }
  }

  lemma PassMakes(first: Db, current: Db, left: set<UserId>, t: Turn, p: Progress)
    requires Outcome(current, t.order, p, t.now) && OwedSet(current, t.now) == left
    requires forall u | u in left ::
               u in current.scan && u in first.scan && CelebrationOf(current, u) == CelebrationOf(first, u)
    ensures Made(p) <= left && forall c | c in p.made :: c.user in first.scan && c == CelebrationOf(first, c.user)
  {
    forall c | c in p.made ensures c.user in left && c == CelebrationOf(first, c.user) {
      assert c.user in Made(p) && MemberOutcome(current, c.user, p, t.now);
    }
  }

  lemma PartialPass(first: Db, start: Time, db: Db, left: set<UserId>, t: Turn, p: Progress)
    requires OrderOf(t.order, db.scan) && Midway(first, start, db, left) && !p.complete
    requires var current := Expire(db, t.now);
             Outcome(current, t.order, p, t.now) && OwedSet(current, t.now) == left
    ensures var next := Finish(Expire(db, t.now), p);
            Midway(first, start, next, left - Made(p)) && Settled(next, left - Made(p))
  {
    var current := Expire(db, t.now);
    forall u | u in left - Made(p) ensures u in t.order && Untouched(Begin(current, 0), p, u) {
      assert u in current.scan && MemberOutcome(current, u, p, t.now);
    }
    forall u | u in db.scan && u !in left - Made(p) ensures u in p.members && p.members[u] == db.scan[u] {
      assert u in t.order && MemberOutcome(current, u, p, t.now);
    }
  }

  lemma CompletePass(db: Db, order: seq<UserId>, p: Progress, now: Time)
    requires Outcome(db, order, p, now) && OrderOf(order, db.scan) && p.complete
    ensures OwedSet(db, now) <= Made(p) && Finish(db, p).members == db.scan
  {
    forall u | u in OwedSet(db, now) ensures u in Made(p) { assert u in order; }
    forall u | u in db.scan ensures u in p.members && p.members[u] == db.scan[u] { assert u in order; }
  }

  ghost predicate NoneTwice(cs: seq<Celebration>) {
    forall i, j | 0 <= i < j < |cs| :: cs[i].user != cs[j].user
  }

  function Users(cs: seq<Celebration>): set<UserId> {
    set c | c in cs :: c.user
  }

  /** Celebrations so far: each owed at the first tick, as it was owed, and nobody twice. */
  ghost predicate Rightful(first: Db, now: Time, made: seq<Celebration>) {
    && Users(made) <= OwedSet(first, now) && NoneTwice(made)
    && forall c | c in made :: c.user in first.scan && c == CelebrationOf(first, c.user)
  }

  /** Where the tables stand once these celebrations are made and the pass was complete or not. */
  ghost predicate Standing(first: Db, now: Time, db: Db, made: seq<Celebration>, complete: bool) {
    var owed := OwedSet(first, now);
    if complete then Users(made) == owed && db.members == first.scan
    else Midway(first, now, db, owed - Users(made)) && Settled(db, owed - Users(made))
  }

  lemma JoinPass(first: Db, start: Time, db: Db, before: seq<Celebration>, t: Turn, cap: Option<nat>)
    requires OrderOf(t.order, db.scan) && start <= t.now && Rightful(first, start, before)
    requires var left := OwedSet(first, start) - Users(before);
             && Midway(first, start, db, left) && OwedSet(Expire(db, t.now), t.now) == left
             && forall u | u in left :: u in db.scan && CelebrationOf(Expire(db, t.now), u) == CelebrationOf(first, u)
    ensures var (next, p) := Pass(db, t.order, t.pending, t.now, cap);
            Rightful(first, start, before + p.made) && Standing(first, start, next, before + p.made, p.complete)
  {
    var owed := OwedSet(first, start);
    var left := owed - Users(before);
    PassStep(first, start, db, left, t, cap);
    var p := Pass(db, t.order, t.pending, t.now, cap).1;
    assert Users(p.made) == Made(p);
    JoinMade(before, p.made);
    assert left - Made(p) == owed - Users(before + p.made);
  }

  /** The invariant over a row of passes. */
  lemma {:induction false} PassesKeep(dbs: seq<Db>, turns: seq<Turn>, results: seq<Progress>)
    requires Passes(dbs, turns, results) && |turns| > 0
    ensures Rightful(dbs[0], turns[0].now, AllMade(results))
    ensures Standing(dbs[0], turns[0].now, dbs[|turns|], AllMade(results), results[|turns| - 1].complete)
    decreases |turns|
  {
    var first, now, n := dbs[0], turns[0].now, |turns|;
    var before := AllMade(results[..n - 1]);
    var left := OwedSet(first, now) - Users(before);
    if n == 1 {
      StartOwed(first, now);
      assert left == OwedSet(first, now);
    } else {
      PassesKeep(dbs[..n], turns[..n - 1], results[..n - 1]);
      OwedIsLeft(first, now, dbs[n - 1], left, turns[n - 1].now);
    }
    var t := turns[n - 1];
    assert (dbs[n], results[n - 1]) == Pass(dbs[n - 1], t.order, t.pending, t.now, Some(MAX_PENDING));
    JoinPass(first, now, dbs[n - 1], before, t, Some(MAX_PENDING));
  }

  lemma JoinMade(a: seq<Celebration>, b: seq<Celebration>)
    ensures Users(a + b) == Users(a) + Users(b)
    ensures NoneTwice(a) && NoneTwice(b) && Users(a) !! Users(b) ==> NoneTwice(a + b)
  {
    assert forall c :: c in a + b <==> c in a || c in b;
    if NoneTwice(a) && NoneTwice(b) && Users(a) !! Users(b) {
      forall i, j | 0 <= i < j < |a + b| ensures (a + b)[i].user != (a + b)[j].user {
        if i < |a| <= j {
          assert (a + b)[i] in a && (a + b)[j] in b;
          assert (a + b)[i].user in Users(a) && (a + b)[j].user in Users(b);
        }
      }
    }
  }

  /** Over any number of backlog-capped ticks a completed scan yields the members table and the
      celebrations of one uncapped pass at the first tick, with nobody celebrated twice. */
  lemma CappedRefinesUncapped(dbs: seq<Db>, turns: seq<Turn>, results: seq<Progress>, order: seq<UserId>, pending: nat)
    requires Passes(dbs, turns, results) && |turns| > 0 && results[|turns| - 1].complete
    requires OrderOf(order, dbs[0].scan)
    ensures var (whole, p) := Pass(dbs[0], order, pending, turns[0].now, None);
            && dbs[|turns|].members == whole.members == dbs[0].scan
            && (set c | c in AllMade(results)) == (set c | c in p.made)
            && NoneTwice(AllMade(results))
  {
    var first, now := dbs[0], turns[0].now;
    PassesKeep(dbs, turns, results);
    StartOwed(first, now);
    PassStep(first, now, first, OwedSet(first, now), Turn(now, pending, order), None);
    UncappedCompletes(Begin(Expire(first, now), pending), order, first.scan, first.baseline, now);
    var (whole, p) := Pass(first, order, pending, now, None);
    SameCelebrations(first, AllMade(results), p.made);
  }

  lemma SameCelebrations(db: Db, a: seq<Celebration>, b: seq<Celebration>)
    requires forall c | c in a :: c.user in db.scan && c == CelebrationOf(db, c.user)
    requires forall c | c in b :: c.user in db.scan && c == CelebrationOf(db, c.user)
    requires Users(a) == Users(b)
    ensures (set c | c in a) == (set c | c in b)
  {
    forall c | c in a ensures c in b {
      assert c.user in Users(b);
      var d :| d in b && d.user == c.user;
    }
    forall c | c in b ensures c in a {
      assert c.user in Users(a);
      var d :| d in a && d.user == c.user;
    }
  }
}
