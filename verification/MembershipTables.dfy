/** Paid-role celebrations: a staged member scan, applied in passes capped by the outbox backlog. */
module MembershipTables {
  import opened Basics
  import opened Ranking

  type UserId = nat

  const PAGE := 1000
  const MAX_PENDING := 1000
  const COOLDOWN: Time := 86400.0

  datatype Tier = Starter | Pro

  /** A guild member as listed: an eligible human's best paid tier, or None. */
  datatype Member = Member(id: UserId, tier: Option<Tier>)

  datatype Celebration = Celebration(user: UserId, tier: Tier, upgrade: bool)

  datatype Db = Db(
    members: map<UserId, Tier>, scan: map<UserId, Tier>, after: Option<UserId>, scanned: bool, baseline: bool,
    cooldowns: map<(UserId, Tier), Time>, paid: Option<nat>)

  const EMPTY := Db(map[], map[], None, false, false, map[], None)

  // ---------------------------------------------------------------- staging

  function StageRows(scan: map<UserId, Tier>, page: seq<Member>): map<UserId, Tier> {
    if page == [] then scan
    else
      var n := |page| - 1;
      var before := StageRows(scan, page[..n]);
      if page[n].tier.Some? then before[page[n].id := page[n].tier.value] else before
  }

  /** A full page moves the position; a short one ends the scan. Pages are in id order. */
  function Stage(db: Db, page: seq<Member>): Db {
    var staged := db.(scan := StageRows(db.scan, page));
    if |page| == PAGE then staged.(after := Some(page[PAGE - 1].id)) else staged.(scanned := true)
  }

  // ---------------------------------------------------------------- applying

  datatype Progress = Progress(
    members: map<UserId, Tier>, cooldowns: map<(UserId, Tier), Time>, pending: nat, complete: bool,
    made: seq<Celebration>)

  predicate Upgrades(members: map<UserId, Tier>, u: UserId, tier: Tier) {
    u in members && members[u].Starter? && tier.Pro?
  }

  /** A new or upgraded member outside the tier's cooldown, once a baseline exists. */
  predicate Owed(members: map<UserId, Tier>, cooldowns: map<(UserId, Tier), Time>, baseline: bool,
                 u: UserId, tier: Tier, now: Time) {
    && baseline
    && (u !in members || Upgrades(members, u, tier))
    && ((u, tier) in cooldowns ==> cooldowns[(u, tier)] <= now)
  }

  function Visit(p: Progress, u: UserId, tier: Tier, baseline: bool, now: Time, cap: Option<nat>): Progress {
    var celebrate := Owed(p.members, p.cooldowns, baseline, u, tier, now);
    if celebrate && cap.Some? && p.pending >= cap.value then p.(complete := false)
    else
      Progress(p.members[u := tier],
               if !baseline || celebrate then p.cooldowns[(u, tier) := now + COOLDOWN] else p.cooldowns,
               if celebrate then p.pending + 1 else p.pending, p.complete,
               if celebrate then p.made + [Celebration(u, tier, Upgrades(p.members, u, tier))] else p.made)
  }

  function VisitAll(p: Progress, order: seq<UserId>, scan: map<UserId, Tier>, baseline: bool, now: Time,
                    cap: Option<nat>): Progress
    requires forall u | u in order :: u in scan
  {
    if order == [] then p
    else
      var n := |order| - 1;
      Visit(VisitAll(p, order[..n], scan, baseline, now, cap), order[n], scan[order[n]], baseline, now, cap)
  }

  function Begin(db: Db, pending: nat): Progress {
    Progress(db.members, db.cooldowns, pending, true, [])
  }

  /** Removals and the baseline wait for a pass that left nobody out. */
  function Finish(db: Db, p: Progress): Db {
    var applied := db.(members := p.members, cooldowns := p.cooldowns, paid := Some(|db.scan|));
    if p.complete then
      applied.(members := map u | u in p.members && u in db.scan :: p.members[u],
               baseline := true, scan := map[], after := None, scanned := false)
    else applied
  }

  ghost predicate OrderOf(order: seq<UserId>, scan: map<UserId, Tier>) {
    Distinct(order) && forall u :: u in order <==> u in scan
  }

  function Expire(db: Db, now: Time): Db {
    db.(cooldowns := map k | k in db.cooldowns && db.cooldowns[k] > now :: db.cooldowns[k])
  }

  /** One tick's pass over the completed scan. */
  function Pass(db: Db, order: seq<UserId>, pending: nat, now: Time, cap: Option<nat>): (Db, Progress)
    requires forall u | u in order :: u in db.scan
  {
    var current := Expire(db, now);
    var p := VisitAll(Begin(current, pending), order, db.scan, db.baseline, now, cap);
    (Finish(current, p), p)
  }
}
