/** The staged scan is complete and sound, and celebrations are spaced, whatever happens between. */
module MembershipScan {
  import opened Basics
  import opened MembershipTables

  /** The guild's member list at one moment. */
  type Roster = map<UserId, Option<Tier>>

  ghost predicate Ascending(page: seq<Member>) {
    forall i, j | 0 <= i < j < |page| :: page[i].id < page[j].id
  }

  predicate After(after: Option<UserId>, u: UserId) {
    after.Some? ==> u > after.value
  }

  /** The first thousand members behind the position. */
  ghost predicate PageOf(roster: Roster, after: Option<UserId>, page: seq<Member>) {
    && Ascending(page) && |page| <= PAGE
    && (forall m | m in page :: After(after, m.id) && m.id in roster && roster[m.id] == m.tier)
    && (forall u | u in roster && After(after, u) && Member(u, roster[u]) !in page ::
          |page| == PAGE && u > page[PAGE - 1].id)
  }

  /** One scan from its first page on; members come and go between pages. */
  ghost predicate Scanning(dbs: seq<Db>, rosters: seq<Roster>, pages: seq<seq<Member>>) {
    && |rosters| == |pages| && |dbs| == |pages| + 1
    && dbs[0].scan == map[] && dbs[0].after.None? && !dbs[0].scanned
    && forall i | 0 <= i < |pages| ::
         !dbs[i].scanned && PageOf(rosters[i], dbs[i].after, pages[i]) && dbs[i + 1] == Stage(dbs[i], pages[i])
  }

  lemma {:induction false} StagedTier(scan: map<UserId, Tier>, page: seq<Member>, m: Member)
    requires Ascending(page) && m in page && m.tier.Some?
    ensures m.id in StageRows(scan, page) && StageRows(scan, page)[m.id] == m.tier.value
    decreases |page|
  {
    var n := |page| - 1;
    if m in page[..n] {
      assert m.id != page[n].id;
      StagedTier(scan, page[..n], m);
    } else {
      assert page == page[..n] + [page[n]];
    }
  }

  lemma {:induction false} StagedElsewhere(scan: map<UserId, Tier>, page: seq<Member>, u: UserId)
    requires forall m | m in page :: m.id != u
    ensures (u in StageRows(scan, page) <==> u in scan) && (u in scan ==> StageRows(scan, page)[u] == scan[u])
    decreases |page|
  {
    if page != [] { StagedElsewhere(scan, page[..|page| - 1], u); }
  }

  lemma {:induction false} StagedFrom(scan: map<UserId, Tier>, page: seq<Member>, u: UserId)
    requires u in StageRows(scan, page)
    ensures (u in scan && StageRows(scan, page)[u] == scan[u]) || Member(u, Some(StageRows(scan, page)[u])) in page
    decreases |page|
  {
    if page != [] {
      var n := |page| - 1;
      if u in StageRows(scan, page[..n]) { StagedFrom(scan, page[..n], u); }
      assert forall m | m in page[..n] :: m in page;
      assert page[n] in page;
    }
  }

  /** Everybody who held one paid tier throughout is staged once the position has passed them. */
  lemma {:induction false} SteadyMemberStaged(dbs: seq<Db>, rosters: seq<Roster>, pages: seq<seq<Member>>,
                                              k: nat, u: UserId, tier: Tier)
    requires Scanning(dbs, rosters, pages) && k < |dbs|
    requires forall i | 0 <= i < |rosters| :: u in rosters[i] && rosters[i][u] == Some(tier)
    ensures dbs[k].scanned || !After(dbs[k].after, u) ==> u in dbs[k].scan && dbs[k].scan[u] == tier
    decreases k
  {
    if k > 0 {
      SteadyMemberStaged(dbs, rosters, pages, k - 1, u, tier);
      assert dbs[k] == Stage(dbs[k - 1], pages[k - 1]);
      var m := Member(u, Some(tier));
      if m in pages[k - 1] {
        StagedTier(dbs[k - 1].scan, pages[k - 1], m);
      } else {
        forall o | o in pages[k - 1] ensures o.id != u { assert o.id == u ==> o == m; }
        StagedElsewhere(dbs[k - 1].scan, pages[k - 1], u);
        assert After(dbs[k - 1].after, u) ==> |pages[k - 1]| == PAGE && u > pages[k - 1][PAGE - 1].id;
      }
    }
  }

  /** Nobody is staged with a tier that no page listed. */
  lemma {:induction false} StagedWasListed(dbs: seq<Db>, rosters: seq<Roster>, pages: seq<seq<Member>>, k: nat,
          u: UserId)
    requires Scanning(dbs, rosters, pages) && k < |dbs| && u in dbs[k].scan
    ensures exists i :: 0 <= i < k && u in rosters[i] && rosters[i][u] == Some(dbs[k].scan[u])
    decreases k
  {
    StagedFrom(dbs[k - 1].scan, pages[k - 1], u);
    assert dbs[k] == Stage(dbs[k - 1], pages[k - 1]);
    if Member(u, Some(dbs[k].scan[u])) in pages[k - 1] {
      assert rosters[k - 1][u] == Some(dbs[k].scan[u]);
    } else {
      StagedWasListed(dbs, rosters, pages, k - 1, u);
    }
  }

  /** Partial scans never touch the members table. */
  lemma StagingIsQuiet(db: Db, page: seq<Member>)
    ensures var next := Stage(db, page);
            next.members == db.members && next.baseline == db.baseline && next.cooldowns == db.cooldowns
            && next.paid == db.paid
  {
  }

  // ---------------------------------------------------------------- spacing

  datatype Party = Party(user: UserId, tier: Tier, at: Time)

  ghost predicate Spaced(ps: seq<Party>) {
    forall i, j | 0 <= i < j < |ps| && ps[i].user == ps[j].user && ps[i].tier == ps[j].tier ::
      ps[i].at + COOLDOWN <= ps[j].at
  }

  ghost predicate Cooled(cooldowns: map<(UserId, Tier), Time>, ps: seq<Party>, now: Time) {
    forall p | p in ps :: p.at <= now
      && (p.at + COOLDOWN > now ==> (p.user, p.tier) in cooldowns && cooldowns[(p.user, p.tier)] >= p.at + COOLDOWN)
  }

  function Parties(made: seq<Celebration>, now: Time): (r: seq<Party>)
    ensures |r| == |made|
  {
    seq(|made|, i requires 0 <= i < |made| => Party(made[i].user, made[i].tier, now))
  }

  lemma {:induction false} VisitsSpaced(p: Progress, order: seq<UserId>, scan: map<UserId, Tier>, baseline: bool,
                                        now: Time, cap: Option<nat>, ps: seq<Party>)
    requires (forall u | u in order :: u in scan) && p.made == []
    requires Spaced(ps) && Cooled(p.cooldowns, ps, now)
    ensures var q := VisitAll(p, order, scan, baseline, now, cap);
            Spaced(ps + Parties(q.made, now)) && Cooled(q.cooldowns, ps + Parties(q.made, now), now)
    decreases |order|
  {
    if order == [] {
      assert ps + Parties([], now) == ps;
    } else {
      var n := |order| - 1;
      VisitsSpaced(p, order[..n], scan, baseline, now, cap, ps);
      VisitSpaced(VisitAll(p, order[..n], scan, baseline, now, cap), order[n], scan[order[n]], baseline, now, cap, ps);
    }
  }

  lemma VisitSpaced(p: Progress, u: UserId, tier: Tier, baseline: bool, now: Time, cap: Option<nat>, ps: seq<Party>)
    requires Spaced(ps + Parties(p.made, now)) && Cooled(p.cooldowns, ps + Parties(p.made, now), now)
    ensures var q := Visit(p, u, tier, baseline, now, cap);
            Spaced(ps + Parties(q.made, now)) && Cooled(q.cooldowns, ps + Parties(q.made, now), now)
  {
    var q := Visit(p, u, tier, baseline, now, cap);
    var sofar := ps + Parties(p.made, now);
    if q.made != p.made {
      assert ps + Parties(q.made, now) == sofar + [Party(u, tier, now)];
      forall i | 0 <= i < |sofar| && sofar[i].user == u && sofar[i].tier == tier
        ensures sofar[i].at + COOLDOWN <= now
      {
        assert sofar[i] in sofar;
      }
    }
  }

  datatype System = System(db: Db, now: Time, parties: seq<Party>)

  datatype Event = Tick(later: Time) | Page(page: seq<Member>) | Apply(order: seq<UserId>, pending: nat)

  ghost predicate Enabled(s: System, e: Event) {
    match e
    case Tick(later) => s.now <= later
    case Page(_) => !s.db.scanned
    case Apply(order, _) => s.db.scanned && OrderOf(order, s.db.scan)
  }

  ghost function Step(s: System, e: Event): System
    requires Enabled(s, e)
  {
    match e
    case Tick(later) => s.(now := later)
    case Page(page) => s.(db := Stage(s.db, page))
    case Apply(order, pending) =>
      var (db, p) := Pass(s.db, order, pending, s.now, Some(MAX_PENDING));
      s.(db := db, parties := s.parties + Parties(p.made, s.now))
  }

  /** The history grows by exactly the celebrations of a pass, with their member, tier and time. */
  lemma PartiesTold(s: System, e: Event)
    requires Enabled(s, e)
    ensures var next := Step(s, e);
            && |s.parties| <= |next.parties| && next.parties[..|s.parties|] == s.parties
            && (e.Apply? ==>
                  var made := Pass(s.db, e.order, e.pending, s.now, Some(MAX_PENDING)).1.made;
                  && |next.parties| == |s.parties| + |made|
                  && forall i | 0 <= i < |made| ::
                       next.parties[|s.parties| + i] == Party(made[i].user, made[i].tier, s.now))
            && (!e.Apply? ==> next.parties == s.parties)
  {
  }

  ghost predicate Run(states: seq<System>, events: seq<Event>) {
    && |states| == |events| + 1
    && states[0] == System(EMPTY, 0.0, [])
    && forall i | 0 <= i < |events| :: Enabled(states[i], events[i]) && states[i + 1] == Step(states[i], events[i])
  }

  lemma StepSpaced(s: System, e: Event)
    requires Enabled(s, e) && Spaced(s.parties) && Cooled(s.db.cooldowns, s.parties, s.now)
    ensures var next := Step(s, e); Spaced(next.parties) && Cooled(next.db.cooldowns, next.parties, next.now)
  {
    if e.Apply? {
      var current := Expire(s.db, s.now);
      VisitsSpaced(Begin(current, e.pending), e.order, s.db.scan, s.db.baseline, s.now, Some(MAX_PENDING), s.parties);
    }
  }

  lemma {:induction false} RunSpaced(states: seq<System>, events: seq<Event>, n: nat)
    requires Run(states, events) && n < |states|
    ensures Spaced(states[n].parties) && Cooled(states[n].db.cooldowns, states[n].parties, states[n].now)
  {
    if n > 0 {
      RunSpaced(states, events, n - 1);
      StepSpaced(states[n - 1], events[n - 1]);
    }
  }

  /** Over all scans and passes, one member's celebrations of one tier are at least a day apart. */
  lemma CelebrationsADayApart(states: seq<System>, events: seq<Event>, n: nat, i: nat, j: nat)
    requires Run(states, events) && n < |states| && i < j < |states[n].parties|
    requires states[n].parties[i].user == states[n].parties[j].user
    requires states[n].parties[i].tier == states[n].parties[j].tier
    ensures states[n].parties[i].at + 86400.0 <= states[n].parties[j].at
  {
    RunSpaced(states, events, n);
  }

  lemma {:induction false} BaselineMakesNothing(p: Progress, order: seq<UserId>, scan: map<UserId, Tier>, now: Time,
          cap: Option<nat>)
    requires forall u | u in order :: u in scan
    ensures VisitAll(p, order, scan, false, now, cap).made == p.made
    ensures VisitAll(p, order, scan, false, now, cap).complete == p.complete
    decreases |order|
  {
    if order != [] { BaselineMakesNothing(p, order[..|order| - 1], scan, now, cap); }
  }

  /** Nothing is celebrated before the first whole scan has become the quiet baseline. */
  lemma {:induction false} QuietBaseline(states: seq<System>, events: seq<Event>, n: nat)
    requires Run(states, events) && n < |states| && !states[n].db.baseline
    ensures states[n].parties == []
  {
    if n > 0 {
      var s, e := states[n - 1], events[n - 1];
      if e.Apply? && !s.db.baseline {
        BaselineMakesNothing(Begin(Expire(s.db, s.now), e.pending), e.order, s.db.scan, s.now, Some(MAX_PENDING));
      }
      QuietBaseline(states, events, n - 1);
    }
  }
}
