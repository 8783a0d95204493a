/** One member's turn in a pass, told on the tables. */
module MembershipVisits {
  import opened Basics
  import opened MembershipTables

  /** New, or a starter who became pro, and not celebrated for this tier in the last day. */
  predicate Deserves(p: Progress, u: UserId, tier: Tier, baseline: bool, now: Time) {
    && baseline
    && (u !in p.members || (p.members[u] == Starter && tier == Pro))
    && !((u, tier) in p.cooldowns && p.cooldowns[(u, tier)] > now)
  }

  /** The member is celebrated exactly when it is deserved and the backlog has room: as an upgrade
      exactly when it was known before. Who is deserving but finds no room is left for a later tick,
      and nothing of it changes. A day's cooldown follows a celebration, and every member of the
      baseline. */
  lemma VisitTold(p: Progress, u: UserId, tier: Tier, baseline: bool, now: Time, cap: Option<nat>)
    ensures var q := Visit(p, u, tier, baseline, now, cap);
            var full := cap.Some? && p.pending >= cap.value;
            if Deserves(p, u, tier, baseline, now) && full then q == p.(complete := false)
            else
              && q.complete == p.complete && q.members == p.members[u := tier]
              && (Deserves(p, u, tier, baseline, now) ==>
                    && q.made == p.made + [Celebration(u, tier, u in p.members)] && q.pending == p.pending + 1
                    && q.cooldowns == p.cooldowns[(u, tier) := now + 86400.0])
              && (!Deserves(p, u, tier, baseline, now) ==>
                    && q.made == p.made && q.pending == p.pending
                    && q.cooldowns == if baseline then p.cooldowns else p.cooldowns[(u, tier) := now + 86400.0])
  {
  }

  /** A pass adds one to the backlog for each celebration, and celebrates nobody beyond its limit. */
  lemma {:induction false} PassFits(p: Progress, order: seq<UserId>, scan: map<UserId, Tier>, baseline: bool, now: Time,
                                    cap: nat)
    requires forall u | u in order :: u in scan
    ensures var q := VisitAll(p, order, scan, baseline, now, Some(cap));
            && |q.made| >= |p.made| && q.pending == p.pending + (|q.made| - |p.made|)
            && (|q.made| > |p.made| ==> q.pending <= cap)
    decreases |order|
  {
    if order != [] {
      var n := |order| - 1;
      PassFits(p, order[..n], scan, baseline, now, cap);
      VisitTold(VisitAll(p, order[..n], scan, baseline, now, Some(cap)), order[n], scan[order[n]], baseline, now,
                Some(cap));
    }
  }

  /** A full page of a thousand moves the scan on behind its last member, a shorter one ends it; nothing
      but the staged tiers changes. */
  lemma PageTold(db: Db, page: seq<Member>)
    ensures var next := Stage(db, page);
            && next == db.(scan := next.scan, after := next.after, scanned := next.scanned)
            && (|page| == 1000 ==> next.after == Some(page[999].id) && next.scanned == db.scanned)
            && (|page| != 1000 ==> next.after == db.after && next.scanned)
  {
  }
}
