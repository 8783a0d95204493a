/** Intake keeps the channel invariants, whatever is observed, seeded or rearmed. */
module ChannelIntake {
  import opened Basics
  import opened ChannelTables
  import opened ChannelOps
  import opened ChannelInvariant

  /** Adding or rearming never touches a row that points at an envelope. */
  lemma AddJobRows(jobs: map<JobId, Job>, item: Item, route: Route, firstSeen: Time, now: Time, d: DispatchId)
    ensures RowsOf(AddJob(jobs, item, route, firstSeen, now), d) == RowsOf(jobs, d)
  {
    var next := AddJob(jobs, item, route, firstSeen, now);
    forall k | k in next ensures k in RowsOf(next, d) <==> k in RowsOf(jobs, d) {}
  }

  lemma AddJobPartition(db: Db, item: Item, route: Route, firstSeen: Time, now: Time)
    requires Partition(db)
    ensures Partition(db.(jobs := AddJob(db.jobs, item, route, firstSeen, now)))
  {
    var next := db.(jobs := AddJob(db.jobs, item, route, firstSeen, now));
    forall d | d in next.dispatches ensures WellFormed(next, d) && (Frozen(next, d) || Split(next, d)) {
      assert WellFormed(db, d);
      AddJobRows(db.jobs, item, route, firstSeen, now, d);
    }
  }

  lemma AddJobKeeps(db: Db, item: Item, route: Route, firstSeen: Time, now: Time)
    requires Inv(db) && item.id in db.items && item.id !in db.seeded
    ensures Keeps(db, db.(jobs := AddJob(db.jobs, item, route, firstSeen, now)))
  {
    AddJobPartition(db, item, route, firstSeen, now);
    AddJobShapes(db, item, route, firstSeen, now);
  }

  lemma AddJobShapes(db: Db, item: Item, route: Route, firstSeen: Time, now: Time)
    requires forall k | k in db.jobs :: JobShape(db.jobs[k]) && (k.item in db.seeded ==> !db.jobs[k].Live())
    requires item.id !in db.seeded
    ensures var jobs := AddJob(db.jobs, item, route, firstSeen, now);
            && (forall k | k in jobs :: JobShape(jobs[k]) && (k.item in db.seeded ==> !jobs[k].Live()))
            && (forall k | k in db.jobs :: k in jobs && (db.jobs[k].state.Sent? ==> jobs[k] == db.jobs[k]))
            && (forall k | k in jobs && jobs[k].state.Leased? :: k in db.jobs && jobs[k] == db.jobs[k])
  {
  }

  lemma KeepsTrans(a: Db, b: Db, c: Db)
    requires Keeps(a, b) && Keeps(b, c)
    ensures Keeps(a, c)
  {
  }

  lemma {:induction false} AddJobsKeeps(db: Db, item: Item, routes: seq<Route>, firstSeen: Time, now: Time)
    requires Inv(db) && item.id in db.items && item.id !in db.seeded
    ensures Keeps(db, db.(jobs := AddJobs(db.jobs, item, routes, firstSeen, now)))
  {
    if routes == [] {
      assert db == db.(jobs := AddJobs(db.jobs, item, routes, firstSeen, now));
    } else {
      var n := |routes| - 1;
      AddJobsKeeps(db, item, routes[..n], firstSeen, now);
      var mid := db.(jobs := AddJobs(db.jobs, item, routes[..n], firstSeen, now));
      AddJobKeeps(mid, item, routes[n], firstSeen, now);
      KeepsTrans(db, mid, mid.(jobs := AddJob(mid.jobs, item, routes[n], firstSeen, now)));
    }
  }

  /** Observed and seeded items are not part of the partition. */
  lemma SamePartition(a: Db, b: Db)
    requires Partition(a) && a.jobs == b.jobs && a.dispatches == b.dispatches && a.limits == b.limits
    ensures Partition(b)
  {
    forall d | d in b.dispatches ensures WellFormed(b, d) && (Frozen(b, d) || Split(b, d)) {
      assert WellFormed(a, d);
    }
  }

  lemma ObserveKeeps(db: Db, item: Item, now: Time)
    requires Inv(db)
    ensures Keeps(db, Observe(db, item, now))
  {
    SamePartition(db, Observe(db, item, now));
  }

  lemma SeedSweepKeeps(db: Db, item: ItemId)
    requires Inv(db)
    ensures Keeps(db, db.(jobs := SeedJobs(db.jobs, item)))
  {
    var swept := db.(jobs := SeedJobs(db.jobs, item));
    forall k | k in db.jobs ensures Moved(db.jobs[k], swept.jobs[k]) {
      assert JobShape(db.jobs[k]);
    }
    MovesKeep(db, swept);
  }

  lemma SeedKeeps(db: Db, item: ItemId)
    requires Inv(db)
    ensures Keeps(db, Seed(db, item))
  {
    SeedSweepKeeps(db, item);
    var swept := db.(jobs := SeedJobs(db.jobs, item));
    SamePartition(swept, Seed(db, item));
    KeepsTrans(db, swept, Seed(db, item));
  }

  lemma RecordItemKeeps(db: Db, item: Item, now: Time, seedOnly: bool)
    requires Inv(db)
    ensures Keeps(db, RecordItem(db, item, now, seedOnly))
  {
    ObserveKeeps(db, item, now);
    var seen := Observe(db, item, now);
    var marked := if seedOnly then Seed(seen, item.id) else seen;
    if seedOnly {
      SeedKeeps(seen, item.id);
      KeepsTrans(db, seen, marked);
    }
    if item.id !in marked.seeded {
      AddJobsKeeps(marked, item, RouteKeys(item), marked.items[item.id].firstSeen, now);
      KeepsTrans(db, marked, RecordItem(db, item, now, seedOnly));
    }
  }

  lemma {:induction false} RecordKeeps(db: Db, items: seq<Item>, now: Time, seedOnly: bool)
    requires Inv(db)
    ensures Keeps(db, RecordAll(db, items, now, seedOnly))
  {
    if items != [] {
      var n := |items| - 1;
      RecordKeeps(db, items[..n], now, seedOnly);
      RecordItemKeeps(RecordAll(db, items[..n], now, seedOnly), items[n], now, seedOnly);
      KeepsTrans(db, RecordAll(db, items[..n], now, seedOnly), RecordAll(db, items, now, seedOnly));
    }
  }
}
