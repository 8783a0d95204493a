/** The order of claims and fills, told on the rows themselves: dearest first under priority, the
    longest waiting route first under fairness, Free work only behind all paid work. */
module ChannelOrder {
  import opened Basics
  import opened ChannelTables
  import opened Ranking
  import opened ChannelOps
  import opened ChannelFill
  import opened ChannelObserved

  /** a was last seen at a higher retail value than b; an unknown value is below every known one. */
  predicate Dearer(db: Db, a: JobId, b: JobId)
    requires a.item in db.items && b.item in db.items
  {
    var x, y := db.items[a.item].payload.valueCents, db.items[b.item].payload.valueCents;
    x.Some? && (y.None? || x.value > y.value)
  }

  predicate SameValue(db: Db, a: JobId, b: JobId)
    requires a.item in db.items && b.item in db.items
  {
    db.items[a.item].payload.valueCents == db.items[b.item].payload.valueCents
  }

  /** Among equally dear rows: due within the last minute, then the route of everything, then age. */
  predicate SoonerAtValue(db: Db, now: Time, a: JobId, b: JobId)
    requires a in db.jobs && b in db.jobs
  {
    var x, y := db.jobs[a], db.jobs[b];
    if x.due >= now - 60.0 <==> y.due >= now - 60.0 then
      if a.route == ProAll <==> b.route == ProAll then x.due < y.due else a.route == ProAll
    else x.due >= now - 60.0
  }

  /** A priority claim takes a rather than b. */
  predicate DeliveredBefore(db: Db, now: Time, a: JobId, b: JobId)
    requires a in db.jobs && b in db.jobs && a.item in db.items && b.item in db.items
  {
    if a.route == Free || b.route == Free then
      a.route != Free || (b.route == Free && SoonerAtValue(db, now, a, b))
    else Dearer(db, a, b) || (SameValue(db, a, b) && SoonerAtValue(db, now, a, b))
  }

  predicate Waited(db: Db, a: JobId, b: JobId)
    requires a in db.jobs && b in db.jobs
  {
    var x := if a.route in db.turns then db.turns[a.route] else 0;
    var y := if b.route in db.turns then db.turns[b.route] else 0;
    x < y || (x == y && db.jobs[a].due < db.jobs[b].due)
  }

  /** A fair claim takes a rather than b. */
  predicate TurnedBefore(db: Db, a: JobId, b: JobId)
    requires a in db.jobs && b in db.jobs
  {
    (a.route != Free && b.route == Free) || ((a.route == Free <==> b.route == Free) && Waited(db, a, b))
  }

  predicate Precedes(db: Db, now: Time, fair: bool, a: JobId, b: JobId)
    requires a in db.jobs && b in db.jobs && a.item in db.items && b.item in db.items
  {
    if fair then TurnedBefore(db, a, b) else DeliveredBefore(db, now, a, b)
  }

  // ---------------------------------------------------------------- what may be taken

  /** Waiting for its time, or under a lease that ran out. */
  predicate Idle(j: Job, now: Time) {
    || j.state == Pending
    || (j.state == JobState.Leased && j.leaseUntil.Some? && j.leaseUntil.value <= now)
  }

  predicate HeldNow(j: Job, now: Time) {
    j.state == JobState.Leased && j.leaseUntil.Some? && j.leaseUntil.value > now
  }

  /** Its times have come and its route is open: no cooldown, no live lease, and no member of its own
      envelope that still waits. */
  predicate Open(db: Db, k: JobId, now: Time)
    requires k in db.jobs
  {
    && db.jobs[k].due <= now && db.jobs[k].nextAttempt <= now
    && (if RouteGate(k.route) in db.gates then db.gates[RouteGate(k.route)] <= now else 0.0 <= now)
    && (forall o | o in db.jobs && o.route == k.route :: !HeldNow(db.jobs[o], now))
    && (forall o | o in db.jobs && db.jobs[k].batch != None && db.jobs[o].batch == db.jobs[k].batch ::
          db.jobs[o].state == Pending ==> db.jobs[o].nextAttempt <= now)
  }

  /** And the query asks for it. */
  predicate AskedFor(db: Db, k: JobId, q: Query)
    requires k in db.jobs
  {
    && k.route !in q.exclude
    && (q.audience == Paid ==> k.route != Free) && (q.audience == FreeOnly ==> k.route == Free)
    && (q.singlesOnly && db.jobs[k].batch != None && db.jobs[k].batch.value in db.dispatches ==>
          |db.dispatches[db.jobs[k].batch.value].members| < 2)
  }

  lemma CandidateTold(db: Db, k: JobId, now: Time, q: Query)
    ensures Candidate(db, k, now, q) <==>
            k in db.jobs && Idle(db.jobs[k], now) && Open(db, k, now) && AskedFor(db, k, q)
  {
  }

  /** A companion of the first row in a fresh envelope: the same route, on the same side of the
      sixty seconds before expiry, in no envelope and never attempted, due and in time. */
  predicate Companion(db: Db, first: JobId, now: Time, k: JobId)
    requires first in db.jobs
  {
    && k in db.jobs && k != first && k.route == first.route
    && db.jobs[k].state == Pending && db.jobs[k].batch == None && db.jobs[k].attempts == 0
    && db.jobs[k].due <= now && db.jobs[k].nextAttempt <= now && now < db.jobs[k].expires
    && (db.jobs[k].expires > now + 60.0 <==> db.jobs[first].expires > now + 60.0)
  }

  lemma CompanionTold(db: Db, first: JobId, now: Time, k: JobId)
    requires first in db.jobs
    ensures Eligible(db, first, now, k) <==> Companion(db, first, now, k)
  {
  }

  /** How many cards an envelope may have: ten as asked, five of the Free route, and what the route has
      learned. */
  lemma SizeTold(db: Db, q: Query, route: Route)
    ensures var n := BatchSize(db, q, route);
            && n <= q.size && (route == Free ==> n <= 5) && (route in db.limits ==> n <= db.limits[route])
            && (n == q.size || (route == Free && n == 5) || (route in db.limits && n == db.limits[route]))
  {
  }

  /** Every row is live, in time, still on its route as it would be shown, and of no seeded item. */
  predicate AllDeliverable(db: Db, rows: seq<JobId>, now: Time) {
    forall k | k in rows ::
      && k in db.jobs && k.item in db.items && db.jobs[k].state in {Pending, JobState.Leased}
      && now < db.jobs[k].expires && k.item !in db.seeded
      && Routed(if db.jobs[k].snapshot != None then db.jobs[k].snapshot.value else db.items[k.item].payload, k.route)
  }

  lemma DeliverableTold(db: Db, rows: seq<JobId>, now: Time)
    ensures Deliverable(db, rows, now) <==> AllDeliverable(db, rows, now)
  {
    forall k | k in rows && k in db.jobs && k.item in db.items
      ensures k.route in RouteKeys(Shown(db, k)) <==> Routed(Shown(db, k), k.route)
    {
      RoutesAre(Shown(db, k));
    }
  }

  // ---------------------------------------------------------------- which is taken first

  /** The row a claim begins with: a candidate that no other one precedes. */
  predicate FirstInLine(db: Db, now: Time, q: Query, first: JobId)
    requires ForeignKeys(db)
  {
    && first in db.jobs && Candidate(db, first, now, q)
    && forall k | k in db.jobs && Candidate(db, k, now, q) :: !Precedes(db, now, q.fair, k, first)
  }

  lemma RankPrecedes(db: Db, now: Time, q: Query, a: JobId, b: JobId)
    requires a in db.jobs && b in db.jobs && a.item in db.items && b.item in db.items
    ensures Less(ClaimRank(db, q, now, a), ClaimRank(db, q, now, b)) <==> Precedes(db, now, q.fair, a, b)
  {
  }

  /** The row that the claim's query returns is first in line, and any such row may be returned. */
  lemma ClaimOrder(db: Db, now: Time, q: Query, first: JobId)
    requires ForeignKeys(db)
    ensures Lowest(Candidates(db, now, q), first) <==> FirstInLine(db, now, q, first)
  {
    var ranks := Candidates(db, now, q);
    if first in ranks {
      forall k | k in ranks ensures Less(ranks[k], ranks[first]) <==> Precedes(db, now, q.fair, k, first) {
        RankPrecedes(db, now, q, k, first);
      }
    }
  }

  /** A priority claim begins with a paid row if there is one, and with none that is less dear. */
  lemma PriorityPick(db: Db, now: Time, q: Query, first: JobId, k: JobId)
    requires ForeignKeys(db) && !q.fair && Lowest(Candidates(db, now, q), first)
    requires k in db.jobs && Candidate(db, k, now, q) && k.route != Free
    ensures first in db.jobs && first.route != Free && !Dearer(db, k, first)
    ensures SameValue(db, k, first) && db.jobs[k].due >= now - 60.0 ==> db.jobs[first].due >= now - 60.0
    ensures SameValue(db, k, first) && (db.jobs[k].due >= now - 60.0 <==> db.jobs[first].due >= now - 60.0) ==>
              (k.route == ProAll ==> first.route == ProAll)
              && ((k.route == ProAll <==> first.route == ProAll) ==> db.jobs[first].due <= db.jobs[k].due)
  {
    ClaimOrder(db, now, q, first);
    assert !Precedes(db, now, q.fair, k, first);
  }

  // ---------------------------------------------------------------- fills

  /** A fill of this query takes a rather than b. */
  predicate FilledBefore(db: Db, byValue: bool, a: JobId, b: JobId)
    requires a in db.jobs && b in db.jobs && a.item in db.items && b.item in db.items
  {
    if byValue then Dearer(db, a, b) || (SameValue(db, a, b) && db.jobs[a].due < db.jobs[b].due)
    else db.jobs[a].due < db.jobs[b].due
  }

  lemma FillRankPrecedes(db: Db, byValue: bool, a: JobId, b: JobId)
    requires a in db.jobs && b in db.jobs && a.item in db.items && b.item in db.items
    ensures Less(FillRank(db, byValue, a), FillRank(db, byValue, b)) <==> FilledBefore(db, byValue, a, b)
  {
  }

  /** The picks behind the first row are in order, no eligible row left out precedes one of them, and
      one is left out only of a full envelope. By value under priority on paid routes, else by age. */
  lemma FillOrder(db: Db, now: Time, q: Query, p: Pass)
    requires ForeignKeys(db) && p.first in db.jobs && FillPicked(db, now, q, p)
    requires db.jobs[p.first].attempts == 0 && BatchSize(db, q, p.first.route) >= 1
    ensures var byValue := !q.fair && p.first.route != Free;
            && (forall k | k in p.picks :: k in db.jobs && Eligible(db, p.first, now, k))
            && (forall i, j | 0 <= i < j < |p.picks| :: !FilledBefore(db, byValue, p.picks[j], p.picks[i]))
            && (forall k, m | k in db.jobs && Eligible(db, p.first, now, k) && k !in p.picks && m in p.picks ::
                  !FilledBefore(db, byValue, k, m))
    ensures forall k | k in db.jobs && Eligible(db, p.first, now, k) && k !in p.picks ::
              |p.picks| == BatchSize(db, q, p.first.route) - 1
  {
    var byValue := ValueFirst(q, p.first.route);
    var pool := Pool(db, p.first, now, byValue);
    forall i, j | 0 <= i < j < |p.picks| ensures !FilledBefore(db, byValue, p.picks[j], p.picks[i]) {
      assert p.picks[i] in p.picks && p.picks[j] in p.picks;
      FillRankPrecedes(db, byValue, p.picks[j], p.picks[i]);
    }
    forall k, m | k in db.jobs && Eligible(db, p.first, now, k) && k !in p.picks && m in p.picks
      ensures !FilledBefore(db, byValue, k, m)
    {
      FillRankPrecedes(db, byValue, k, m);
    }
    if |p.picks| == |pool| { PoolExhausted(pool, p.picks); }
  }
}
