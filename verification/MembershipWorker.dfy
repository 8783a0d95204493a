/** The membership worker as it runs: staging pages and applying a completed scan in place. */
module MembershipWorker {
  import opened Basics
  import opened Ranking
  import opened MembershipTables
  import opened MembershipVisits

  class MembershipWorker {
    var members: map<UserId, Tier>
    var scan: map<UserId, Tier>
    var after: Option<UserId>
    var scanned: bool
    var baseline: bool
    var cooldowns: map<(UserId, Tier), Time>
    var paid: Option<nat>

    function Tables(): Db
      reads this
    {
      Db(members, scan, after, scanned, baseline, cooldowns, paid)
    }

    constructor ()
      ensures Tables() == EMPTY
    {
      members, scan, after, scanned, baseline, cooldowns, paid := map[], map[], None, false, false, map[], None;
    }

    /** Stage one page of the member list. */
    method StagePage(page: seq<Member>)
      modifies this
      ensures Tables() == Stage(old(Tables()), page)
    {
      ghost var start := scan;
      for i := 0 to |page|
        invariant scan == StageRows(start, page[..i])
        invariant Tables() == old(Tables()).(scan := scan)
      {
        assert page[..i + 1][..i] == page[..i];
        if page[i].tier.Some? { scan := scan[page[i].id := page[i].tier.value]; }
      }
      assert page[..|page|] == page;
      if |page| == PAGE { after := Some(page[PAGE - 1].id); } else { scanned := true; }
    }

    /** SELECT * FROM member_scan ORDER BY user_id */
    method ScanOrder() returns (order: seq<UserId>)
      ensures OrderOf(order, scan) && forall i, j | 0 <= i < j < |order| :: order[i] <= order[j]
    {
      var ranks := map u | u in scan :: Rank(u, 0, 0, 0, 0.0, 0.0);
      assert ranks.Keys == scan.Keys;
      order := TopRows(ranks, |scan|);
      assert |ranks| == |ranks.Keys| && |scan| == |scan.Keys|;
      DistinctCount(order);
      SubsetOfSameSize((set u | u in order), scan.Keys);
    }

    /** One member's turn in a pass. */
    method VisitMember(u: UserId, tier: Tier, now: Time, sofar: (nat, bool, seq<Celebration>))
      returns (next: (nat, bool, seq<Celebration>))
      modifies this`members, this`cooldowns
      ensures Progress(members, cooldowns, next.0, next.1, next.2)
              == Visit(Progress(old(members), old(cooldowns), sofar.0, sofar.1, sofar.2), u, tier, baseline, now,
                      Some(MAX_PENDING))
    {
      var (pending, complete, made) := sofar;
      var upgrade := u in members && members[u].Starter? && tier.Pro?;
      var celebrate := baseline && (u !in members || upgrade)
                       && ((u, tier) !in cooldowns || cooldowns[(u, tier)] <= now);
      if celebrate && pending >= MAX_PENDING {
        return (pending, false, made);
      }
      next := (pending, complete, made);
      if celebrate { next := (pending + 1, complete, made + [Celebration(u, tier, upgrade)]); }
      if !baseline || celebrate { cooldowns := cooldowns[(u, tier) := now + COOLDOWN]; }
      members := members[u := tier];
    }

    method VisitMembers(rows: seq<UserId>, live: nat, now: Time) returns (complete: bool, made: seq<Celebration>,
            pending: nat)
      requires forall u | u in rows :: u in scan
      modifies this`members, this`cooldowns
      ensures forall u | u in rows :: u in scan
      ensures Progress(members, cooldowns, pending, complete, made)
              == VisitAll(Begin(old(Tables()), live), rows, scan, baseline, now, Some(MAX_PENDING))
    {
      ghost var start := Begin(Tables(), live);
      var sofar: (nat, bool, seq<Celebration>) := (live, true, []);
      for i := 0 to |rows|
        invariant forall u | u in rows :: u in scan
        invariant Progress(members, cooldowns, sofar.0, sofar.1, sofar.2)
                  == VisitAll(start, rows[..i], scan, baseline, now, Some(MAX_PENDING))
      {
        assert rows[..i + 1][..i] == rows[..i];
        sofar := VisitMember(rows[i], scan[rows[i]], now, sofar);
      }
      assert rows[..|rows|] == rows;
      pending, complete, made := sofar.0, sofar.1, sofar.2;
    }

    /** One pass over the completed scan, leaving out what the backlog cannot take. */
    method ApplyScan(live: nat, now: Time) returns (complete: bool, made: seq<Celebration>, ghost order: seq<UserId>)
      modifies this
      ensures OrderOf(order, old(scan)) && forall i, j | 0 <= i < j < |order| :: order[i] <= order[j]
      ensures var (db, p) := Pass(old(Tables()), order, live, now, Some(MAX_PENDING));
              Tables() == db && complete == p.complete && made == p.made
      ensures made != [] ==> live + |made| <= 1000
    {
      cooldowns := map k | k in cooldowns && cooldowns[k] > now :: cooldowns[k];
      assert Tables() == Expire(old(Tables()), now);
      var rows := ScanOrder();
      order := rows;
      var pending;
      PassFits(Begin(Tables(), live), rows, scan, baseline, now, 1000);
      complete, made, pending := VisitMembers(rows, live, now);
      FinishScan(complete);
    }

    /** Removals and the baseline wait for a pass that left nobody out. */
    method FinishScan(complete: bool)
      modifies this
      ensures Tables() == Finish(old(Tables()), Progress(old(members), old(cooldowns), 0, complete, []))
    {
      paid := Some(|scan|);
      if complete {
        members := map u | u in members && u in scan :: members[u];
        baseline, scan, after, scanned := true, map[], None, false;
      }
    }
  }
}
