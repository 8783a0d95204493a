/** What one observation leaves behind, told on the rows: its routes, the times of its jobs, and which
    skipped jobs it wakes. */
module ChannelObserved {
  import opened Basics
  import opened ChannelTables
  import opened ChannelOps

  /** The routes of an item: the paid ones only while it is available, a price feed only for a known
      positive value, by its exclusive ceiling in cents. */
  predicate Routed(item: Item, route: Route) {
    match route
    case Free => true
    case ProAll => item.available
    case TypeFeed(category) => item.available && category == item.category
    case PriceFeed(band) =>
      && item.available && item.valueCents.Some?
      && var cents := item.valueCents.value;
         && 0 < cents
         && match band
            case 0 => cents < 1000
            case 1 => 1000 <= cents < 2000
            case 2 => 2000 <= cents < 4000
            case 3 => 4000 <= cents < 8000
            case 4 => 8000 <= cents < 20000
            case 5 => 20000 <= cents
            case _ => false
  }

  lemma RoutesAre(item: Item)
    ensures forall route :: route in RouteKeys(item) <==> Routed(item, route)
    ensures forall i, j | 0 <= i < j < |RouteKeys(item)| :: RouteKeys(item)[i] != RouteKeys(item)[j]
  {
  }

  /** A paid job is due at the first sight of its item and lives half an hour from it; a Free job is due
      a day after now, lives a week longer, and keeps the item as it was. */
  predicate NewWork(j: Job, item: Item, route: Route, firstSeen: Time, now: Time) {
    && j.state == Pending && j.attempts == 0 && j.nextAttempt == j.due && j.batch == None
    && j.token == None && j.leaseUntil == None && j.reason == NoReason && j.messageId == None && j.sentAt == None
    && (route == Free ==> j.due == now + 86400.0 && j.expires == now + 8.0 * 86400.0 && j.snapshot == Some(item))
    && (route != Free ==> j.due == firstSeen && j.expires == firstSeen + 1800.0 && j.snapshot == None)
  }

  /** A job skipped because its observation had left the route, still in time, is wanted again. */
  predicate WakesUp(j: Job, now: Time) {
    j.state == JobState.Skipped && j.reason == NoLongerMatches && j.expires > now && j.batch == None
  }

  /** One route of the item. */
  ghost predicate JobTold(a: map<JobId, Job>, b: map<JobId, Job>, item: Item, route: Route, firstSeen: Time,
                          now: Time)
  {
    var k := JobId(item.id, route);
    && k in b
    && (if k !in a then NewWork(b[k], item, route, firstSeen, now)
        else if WakesUp(a[k], now)
        then b[k] == a[k].(state := Pending, nextAttempt := a[k].due, reason := NoReason)
        else b[k] == a[k])
  }

  predicate SameJob(a: map<JobId, Job>, b: map<JobId, Job>, k: JobId) {
    (k in a <==> k in b) && (k in a ==> b[k] == a[k])
  }

  lemma JobAdded(jobs: map<JobId, Job>, item: Item, route: Route, firstSeen: Time, now: Time)
    ensures var next := AddJob(jobs, item, route, firstSeen, now);
            && JobTold(jobs, next, item, route, firstSeen, now)
            && forall k | k != JobId(item.id, route) :: SameJob(jobs, next, k)
  {
  }

  lemma {:induction false} JobsAdded(jobs: map<JobId, Job>, item: Item, routes: seq<Route>, firstSeen: Time, now: Time,
                                     k: JobId)
    requires forall i, j | 0 <= i < j < |routes| :: routes[i] != routes[j]
    ensures var next := AddJobs(jobs, item, routes, firstSeen, now);
            if k.item == item.id && k.route in routes then JobTold(jobs, next, item, k.route, firstSeen, now)
            else SameJob(jobs, next, k)
    decreases |routes|
  {
    if routes != [] {
      var n := |routes| - 1;
      JobsAdded(jobs, item, routes[..n], firstSeen, now, k);
      var before := AddJobs(jobs, item, routes[..n], firstSeen, now);
      JobAdded(before, item, routes[n], firstSeen, now);
      assert k.route in routes <==> k.route in routes[..n] || k.route == routes[n];
      assert routes[n] !in routes[..n];
    }
  }

  /** What an observation says of one job. Seeding retires the item's live jobs for good and adds none;
      a seeded item gets none; otherwise every route of the item has its job, and no other row moves. */
  ghost predicate ItemTold(db: Db, next: Db, item: Item, now: Time, seedOnly: bool, k: JobId)
    requires item.id in next.items
  {
    if k.item != item.id then SameJob(db.jobs, next.jobs, k)
    else if seedOnly then
      if k in db.jobs && db.jobs[k].state in {Pending, JobState.Leased}
      then k in next.jobs && next.jobs[k] == db.jobs[k].(state := JobState.Skipped, reason := Seeded)
      else SameJob(db.jobs, next.jobs, k)
    else if item.id in db.seeded || !Routed(item, k.route) then SameJob(db.jobs, next.jobs, k)
    else JobTold(db.jobs, next.jobs, item, k.route, next.items[item.id].firstSeen, now)
  }

  lemma RecordTells(db: Db, item: Item, now: Time, seedOnly: bool, k: JobId)
    ensures var next := RecordItem(db, item, now, seedOnly);
            && item.id in next.items && next.items[item.id].payload == item && next.items[item.id].lastSeen == now
            && next.items[item.id].firstSeen == (if item.id in db.items then db.items[item.id].firstSeen else now)
            && (forall o | o in db.items && o != item.id :: o in next.items && next.items[o] == db.items[o])
            && next.seeded == (if seedOnly then db.seeded + {item.id} else db.seeded)
            && next.dispatches == db.dispatches && next.limits == db.limits && next.gates == db.gates
            && next.turns == db.turns
            && ItemTold(db, next, item, now, seedOnly, k)
  {
    RoutesAre(item);
    var seen := Observe(db, item, now);
    if !seedOnly && item.id !in db.seeded {
      JobsAdded(seen.jobs, item, RouteKeys(item), seen.items[item.id].firstSeen, now, k);
    }
  }
}
