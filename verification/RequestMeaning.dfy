/** What a personal alert promises its member, told on the rows: who is alerted to an observation, and
    which alert may still be sent. */
module RequestMeaning {
  import opened Basics
  import opened Ranking
  import opened RequestTables
  import opened RequestIndex

  /** The watch asks for such an item: it names the product or only words of its title, and any
      minimum is known to be met. */
  predicate Asks(r: Request, item: Item) {
    && (r.minimum == None || (item.valueCents.Some? && item.valueCents.value >= r.minimum.value))
    && (r.matcher == Exact(item.id) || (r.matcher.Keywords? && forall w | w in r.matcher.tokens :: w in item.words))
  }

  lemma MatcherAsks(r: Request, item: Item)
    ensures Matches(r, item) <==> Asks(r, item)
  {
  }

  // ---------------------------------------------------------------- which alert may be sent

  /** A current watch of the member, saved no later than the observation, asks for what was seen. */
  predicate StillAsked(db: Db, a: AlertId)
    requires a in db.alerts
  {
    exists id | id in db.requests ::
      && (a, id) in db.matches && db.matches[(a, id)] == db.requests[id].revision
      && db.requests[id].user == a.user && db.requests[id].updated <= db.alerts[a].observed
      && Asks(db.requests[id], db.alerts[a].payload)
  }

  /** Worth sending: in time, to a ready member, of an available product that is still asked for. */
  predicate Fit(db: Db, a: AlertId, now: Time) {
    && a in db.alerts && db.alerts[a].expires > now
    && a.user in db.users && db.users[a.user].status == Ready
    && db.alerts[a].payload.available && StillAsked(db, a)
  }

  /** Fit, and under a lease that has not run out. */
  predicate Sendable(db: Db, a: AlertId, now: Time) {
    && a in db.alerts && db.alerts[a].state == Leased
    && db.alerts[a].leaseUntil.Some? && db.alerts[a].leaseUntil.value > now
    && Fit(db, a, now)
  }

  /** The revalidation lets through exactly what may be sent. */
  lemma RevalidatesExactly(db: Db, a: AlertId, now: Time)
    ensures Hydrates(db, a, now) <==> Sendable(db, a, now)
  {
    if a in db.alerts {
      forall id | id in db.requests ensures Matches(db.requests[id], db.alerts[a].payload)
                                            <==> Asks(db.requests[id], db.alerts[a].payload)
      {
        MatcherAsks(db.requests[id], db.alerts[a].payload);
      }
    }
  }

  /** The send boundary is crossed exactly by the holder of a sendable alert. */
  lemma CommitsExactly(db: Db, a: AlertId, token: Token, channel: Option<nat>, now: Time)
    ensures BeginSend(db, a, token, channel, now).1
            <==> Sendable(db, a, now) && db.alerts[a].token == Some(token)
  {
    RevalidatesExactly(db, a, now);
  }

  /** A lease changes whether no other row is fit. */
  lemma FitElsewhere(a: Db, b: Db, o: AlertId, x: AlertId, now: Time)
    requires o != x && b == a.(alerts := b.alerts) && x in a.alerts && x in b.alerts && b.alerts[x] == a.alerts[x]
    ensures Fit(a, x, now) <==> Fit(b, x, now)
  {
  }

  lemma LeasedIsFit(db: Db, a: AlertId, token: Token, now: Time)
    requires a in db.alerts
    ensures Hydrates(LeaseAlert(db, a, token, now), a, now) <==> Fit(db, a, now)
  {
    var leased := LeaseAlert(db, a, token, now);
    RevalidatesExactly(leased, a, now);
    assert StillAsked(leased, a) <==> StillAsked(db, a);
  }

  /** The first n rows were unfit and are cancelled; the next one, if any, is fit and leased; no other
      row is touched. */
  ghost predicate FirstFit(db: Db, next: Db, rows: seq<AlertId>, tokens: seq<Token>, n: nat, now: Time)
    requires n <= |rows| <= |tokens|
  {
    && next.users == db.users && next.requests == db.requests && next.matches == db.matches
    && next.alerts.Keys == db.alerts.Keys
    && (forall i | 0 <= i < n ::
          rows[i] in db.alerts && !Fit(db, rows[i], now) && next.alerts[rows[i]].state == Cancelled)
    && (n < |rows| ==>
          && rows[n] in db.alerts && Fit(db, rows[n], now)
          && next.alerts[rows[n]] == db.alerts[rows[n]].(state := Leased, token := Some(tokens[n]),
                                                         leaseUntil := Some(now + 60.0)))
    && (forall a | a in db.alerts && a !in rows :: next.alerts[a] == db.alerts[a])
    && (forall i | n < i < |rows| :: rows[i] in db.alerts && next.alerts[rows[i]] == db.alerts[rows[i]])
  }

  lemma {:induction false} ClaimsFirstFit(db: Db, rows: seq<AlertId>, tokens: seq<Token>, now: Time)
    requires |tokens| >= |rows| && (forall a | a in rows :: a in db.alerts) && Distinct(rows)
    ensures var (next, n) := TryRows(db, rows, tokens, now); FirstFit(db, next, rows, tokens, n, now)
    decreases |rows|
  {
    if rows != [] {
      LeasedIsFit(db, rows[0], tokens[0], now);
      var leased := LeaseAlert(db, rows[0], tokens[0], now);
      if !Hydrates(leased, rows[0], now) {
        var cancelled := CancelAlert(leased, rows[0]);
        ClaimsFirstFit(cancelled, rows[1..], tokens[1..], now);
        RestFits(db, cancelled, rows, tokens, now);
      }
    }
  }

  lemma RestFits(db: Db, cancelled: Db, rows: seq<AlertId>, tokens: seq<Token>, now: Time)
    requires |tokens| >= |rows| > 0 && (forall a | a in rows :: a in db.alerts) && Distinct(rows)
    requires !Fit(db, rows[0], now)
    requires cancelled == CancelAlert(LeaseAlert(db, rows[0], tokens[0], now), rows[0])
    requires var (next, n) := TryRows(cancelled, rows[1..], tokens[1..], now);
             FirstFit(cancelled, next, rows[1..], tokens[1..], n, now)
    ensures var (next, n) := TryRows(cancelled, rows[1..], tokens[1..], now);
            FirstFit(db, next, rows, tokens, n + 1, now)
  {
    var rest, left := rows[1..], tokens[1..];
    var (next, n) := TryRows(cancelled, rest, left, now);
    forall i | 0 <= i < |rest| ensures rest[i] == rows[i + 1] && rest[i] != rows[0] && left[i] == tokens[i + 1]
      ensures Fit(cancelled, rest[i], now) <==> Fit(db, rest[i], now)
    {
      FitElsewhere(db, cancelled, rows[0], rest[i], now);
    }
    assert rows[0] !in rest;
  }

  /** So a claim succeeds exactly when one of the rows it may try is fit. */
  lemma ClaimSucceedsIff(db: Db, rows: seq<AlertId>, tokens: seq<Token>, now: Time)
    requires |tokens| >= |rows| && (forall a | a in rows :: a in db.alerts) && Distinct(rows)
    ensures TryRows(db, rows, tokens, now).1 < |rows| <==> exists a :: a in rows && Fit(db, a, now)
  {
    ClaimsFirstFit(db, rows, tokens, now);
    var n := TryRows(db, rows, tokens, now).1;
    if n < |rows| { assert rows[n] in rows; }
  }

  lemma ClaimedIsSendable(db: Db, rows: seq<AlertId>, tokens: seq<Token>, now: Time)
    requires |tokens| >= |rows| && (forall a | a in rows :: a in db.alerts) && Distinct(rows)
    ensures var (next, n) := TryRows(db, rows, tokens, now);
            n < |rows| ==> Sendable(next, rows[n], now) && next.alerts[rows[n]].token == Some(tokens[n])
  {
    ClaimsFirstFit(db, rows, tokens, now);
    var (next, n) := TryRows(db, rows, tokens, now);
    if n < |rows| { assert StillAsked(next, rows[n]) <==> StillAsked(db, rows[n]); }
  }

  // ---------------------------------------------------------------- which rows a claim may try

  /** Waiting for its time, or under a lease that ran out. */
  predicate MayBeTried(db: Db, a: AlertId, now: Time) {
    && a in db.alerts && a.user in db.users && db.users[a.user].status == Ready
    && db.alerts[a].expires > now && db.alerts[a].nextAttempt <= now
    && (|| db.alerts[a].state == Pending
        || (db.alerts[a].state == Leased && db.alerts[a].leaseUntil.Some? && db.alerts[a].leaseUntil.value <= now))
  }

  predicate TriedBefore(db: Db, a: AlertId, b: AlertId)
    requires a in db.alerts && b in db.alerts
  {
    || db.alerts[a].nextAttempt < db.alerts[b].nextAttempt
    || (db.alerts[a].nextAttempt == db.alerts[b].nextAttempt && db.alerts[a].created < db.alerts[b].created)
  }

  /** The twenty that have waited longest, in that order. */
  lemma LongestWaiting(db: Db, now: Time, rows: seq<AlertId>)
    requires TopOf(DueAlerts(db, now), 20, rows)
    ensures forall a | a in rows :: MayBeTried(db, a, now)
    ensures forall i, j | 0 <= i < j < |rows| :: !TriedBefore(db, rows[j], rows[i])
    ensures forall a, o | MayBeTried(db, a, now) && a !in rows && o in rows :: !TriedBefore(db, a, o)
    ensures |rows| <= 20 && ((exists a :: MayBeTried(db, a, now) && a !in rows) ==> |rows| == 20)
  {
    var due := DueAlerts(db, now);
    forall a ensures a in due <==> MayBeTried(db, a, now) {}
    forall i, j | 0 <= i < j < |rows| ensures !TriedBefore(db, rows[j], rows[i]) {
      assert rows[i] in rows && rows[j] in rows && !Less(due[rows[j]], due[rows[i]]);
    }
    forall a, o | MayBeTried(db, a, now) && a !in rows && o in rows ensures !TriedBefore(db, a, o) {
      assert !Less(due[a], due[o]);
    }
    if a :| MayBeTried(db, a, now) && a !in rows {
      DistinctCount(rows);
      var picked := set k | k in rows;
      assert picked <= due.Keys && a in due.Keys && a !in picked;
      ProperSubsetSize(picked, due.Keys);
      assert |due.Keys| == |due|;
    }
  }

  // ---------------------------------------------------------------- who is alerted

  /** One of the member's watches, saved by now, asks for the item. */
  predicate Wishes(db: Db, user: UserId, item: Item, now: Time) {
    exists id | id in db.requests ::
      db.requests[id].user == user && db.requests[id].updated <= now && Asks(db.requests[id], item)
  }

  lemma HitsAsk(db: Db, item: Item, now: Time)
    requires WatchInv(db)
    ensures forall id :: id in Hits(db, item, now) <==>
              id in db.requests && db.requests[id].updated <= now && Asks(db.requests[id], item)
  {
    IndexRefinesScan(db, item, now);
    forall id | id in db.requests ensures Matches(db.requests[id], item) <==> Asks(db.requests[id], item) {
      MatcherAsks(db.requests[id], item);
    }
  }

  lemma VisitedWish(db: Db, users: seq<UserId>, item: Item, now: Time, user: UserId)
    requires WatchInv(db) && VisitsHits(db, users, Hits(db, item, now))
    ensures user in users <==> Wishes(db, user, item, now)
  {
    HitsAsk(db, item, now);
  }

  /** A fresh alert: due at once, for twenty minutes, never attempted. */
  predicate FreshAlert(r: Alert, item: Item, now: Time) {
    && r.payload == item && r.observed == now && r.created == now && r.expires == now + 1200.0
    && r.state == Pending && r.nextAttempt == now && r.attempts == 0
    && r.token == None && r.leaseUntil == None && r.messageId == None
  }

  /** What one visit does to the member's own alert, and that it touches no other. */
  lemma NotifiedAlert(db: Db, user: UserId, item: Item, now: Time, hits: set<RequestId>)
    ensures var a := AlertId(user, item.id); var next := Notify(db, user, item, now, hits);
            && a in next.alerts
            && (if a in db.alerts && !db.alerts[a].state.Cancelled? && !db.alerts[a].state.Expired?
                   && !db.alerts[a].state.Failed?
                then next.alerts[a] == db.alerts[a] else FreshAlert(next.alerts[a], item, now))
            && (forall o | o != a :: (o in next.alerts <==> o in db.alerts)
                                     && (o in db.alerts ==> next.alerts[o] == db.alerts[o]))
            && next.requests == db.requests && next.users == db.users
  {
  }

  /** Whether the alert may be raised anew: none yet, or one that certainly was not sent. */
  predicate Raisable(db: Db, a: AlertId) {
    a in db.alerts ==> db.alerts[a].state in {Cancelled, Expired, Failed}
  }

  lemma {:induction false} NotifiedAll(db: Db, users: seq<UserId>, item: Item, now: Time, hits: set<RequestId>,
                                       user: UserId)
    requires Distinct(users)
    ensures var a := AlertId(user, item.id); var next := NotifyAll(db, users, item, now, hits);
            if user in users && Raisable(db, a) then a in next.alerts && FreshAlert(next.alerts[a], item, now)
            else (a in next.alerts <==> a in db.alerts) && (a in db.alerts ==> next.alerts[a] == db.alerts[a])
    decreases |users|
  {
    if users != [] {
      var n := |users| - 1;
      NotifiedAll(db, users[..n], item, now, hits, user);
      NotifiedAlert(NotifyAll(db, users[..n], item, now, hits), users[n], item, now, hits);
      assert user in users <==> user in users[..n] || user == users[n];
      assert users[n] !in users[..n];
    }
  }

  lemma {:induction false} OtherProducts(db: Db, users: seq<UserId>, item: Item, now: Time, hits: set<RequestId>,
                                         o: AlertId)
    requires o.item != item.id
    ensures var next := NotifyAll(db, users, item, now, hits);
            (o in next.alerts <==> o in db.alerts) && (o in db.alerts ==> next.alerts[o] == db.alerts[o])
    decreases |users|
  {
    if users != [] {
      var n := |users| - 1;
      OtherProducts(db, users[..n], item, now, hits, o);
      NotifiedAlert(NotifyAll(db, users[..n], item, now, hits), users[n], item, now, hits);
    }
  }

  /** A live alert: its observation may still be refreshed. */
  predicate Waiting(db: Db, a: AlertId) {
    a in db.alerts && db.alerts[a].state in {Pending, Leased}
  }

  /** An observation of an available product, for one member: an alert is raised exactly for a wish
      when none is live or possibly sent; a live one gets the new observation and keeps its place;
      any other stays as it is. */
  ghost predicate MemberTold(db: Db, next: Db, user: UserId, item: Item, now: Time) {
    var a := AlertId(user, item.id);
    if Raisable(db, a) && Wishes(db, user, item, now) then a in next.alerts && FreshAlert(next.alerts[a], item, now)
    else if Waiting(db, a) then
      a in next.alerts && next.alerts[a] == db.alerts[a].(payload := item, observed := now)
    else (a in next.alerts <==> a in db.alerts) && (a in db.alerts ==> next.alerts[a] == db.alerts[a])
  }

  lemma AlertedMembers(db: Db, item: Item, now: Time, users: seq<UserId>, user: UserId)
    requires WatchInv(db) && item.available
    requires var seen := Observed(db, item, now, false); VisitsHits(seen, users, Hits(seen, item, now))
    ensures MemberTold(db, MatchItem(db, item, now, false, users), user, item, now)
    ensures var a := AlertId(user, item.id); var next := MatchItem(db, item, now, false, users);
            Raisable(db, a) ==> (a in next.alerts && next.alerts[a].state == Pending <==> Wishes(db, user, item, now))
  {
    var seen := Observed(db, item, now, false);
    SameWatchesKeep(db, seen);
    VisitedWish(seen, users, item, now, user);
    assert Wishes(seen, user, item, now) <==> Wishes(db, user, item, now);
    NotifiedAll(seen, users, item, now, Hits(seen, item, now), user);
  }

  /** A product that is gone, or seeded, is withdrawn from every member who was not sent it. */
  lemma WithdrawnEverywhere(db: Db, item: Item, now: Time, seedOnly: bool, users: seq<UserId>)
    requires seedOnly || !item.available
    ensures var next := MatchItem(db, item, now, seedOnly, users);
            && next.alerts.Keys == db.alerts.Keys && next.matches == db.matches
            && (forall a | a in db.alerts && a.item == item.id && Waiting(db, a) :: next.alerts[a].state == Cancelled)
            && (forall a | a in db.alerts && !(a.item == item.id && Waiting(db, a)) :: next.alerts[a] == db.alerts[a])
  {
  }

  // ---------------------------------------------------------------- which watches are linked

  predicate SameLink(a: Db, b: Db, k: (AlertId, RequestId)) {
    (k in b.matches <==> k in a.matches) && (k in a.matches ==> b.matches[k] == a.matches[k])
  }

  /** One visit links the hitting watches of the member, at their revision, to an alert that is or becomes
      live; a raised one forgets its older links. */
  ghost predicate LinkedBy(db: Db, next: Db, a: AlertId, hits: set<RequestId>, id: RequestId) {
    if Raisable(db, a) || Waiting(db, a) then
      if id in hits && id in db.requests && db.requests[id].user == a.user then
        (a, id) in next.matches && next.matches[(a, id)] == db.requests[id].revision
      else if Waiting(db, a) || a !in db.alerts then SameLink(db, next, (a, id))
      else (a, id) !in next.matches
    else SameLink(db, next, (a, id))
  }

  lemma NotifiedLinks(db: Db, user: UserId, item: Item, now: Time, hits: set<RequestId>, k: (AlertId, RequestId))
    ensures var a := AlertId(user, item.id); var next := Notify(db, user, item, now, hits);
            if k.0 == a then LinkedBy(db, next, a, hits, k.1) else SameLink(db, next, k)
  {
    var a := AlertId(user, item.id);
    var own := OwnHits(db.requests, user, hits);
    assert k.1 in own <==> k.1 in hits && k.1 in db.requests && db.requests[k.1].user == user;
    assert (a, k.1) in LinkHits(map[], a, own) <==> k.1 in own;
  }

  lemma {:induction false} NotifiedAllLinks(db: Db, users: seq<UserId>, item: Item, now: Time, hits: set<RequestId>,
                                            k: (AlertId, RequestId))
    requires Distinct(users) && k.0.item == item.id
    ensures var next := NotifyAll(db, users, item, now, hits);
            if k.0.user in users then LinkedBy(db, next, k.0, hits, k.1) else SameLink(db, next, k)
    decreases |users|
  {
    if users != [] {
      var n := |users| - 1;
      var before := NotifyAll(db, users[..n], item, now, hits);
      NotifiedAllLinks(db, users[..n], item, now, hits, k);
      NotifiedAll(db, users[..n], item, now, hits, k.0.user);
      NotifiedLinks(before, users[n], item, now, hits, k);
      WatchesStay(db, users[..n], item, now, hits);
      assert k.0.user in users <==> k.0.user in users[..n] || k.0.user == users[n];
      assert users[n] !in users[..n];
      assert k.0 == AlertId(k.0.user, item.id);
    }
  }

  lemma {:induction false} WatchesStay(db: Db, users: seq<UserId>, item: Item, now: Time, hits: set<RequestId>)
    ensures NotifyAll(db, users, item, now, hits).requests == db.requests
    decreases |users|
  {
    if users != [] { WatchesStay(db, users[..|users| - 1], item, now, hits); }
  }

  lemma SeenKeeps(db: Db, item: Item, now: Time, a: AlertId)
    requires item.available
    ensures var seen := Observed(db, item, now, false);
            && seen.requests == db.requests && seen.matches == db.matches && seen.users == db.users
            && SameWatches(db, seen) && (a in seen.alerts <==> a in db.alerts)
            && (Raisable(seen, a) <==> Raisable(db, a)) && (Waiting(seen, a) <==> Waiting(db, a))
            && (forall user :: Wishes(seen, user, item, now) <==> Wishes(db, user, item, now))
  {
    var seen := Observed(db, item, now, false);
    if a in db.alerts { assert seen.alerts[a].state == db.alerts[a].state; }
  }

  /** The watches a raised or live alert is linked to: those of the member that ask for the product, at
      their present revision, beside the older links of a live one. */
  lemma LinkedWatches(db: Db, item: Item, now: Time, users: seq<UserId>, user: UserId, id: RequestId)
    requires WatchInv(db) && item.available
    requires var seen := Observed(db, item, now, false); VisitsHits(seen, users, Hits(seen, item, now))
    ensures var a := AlertId(user, item.id); var next := MatchItem(db, item, now, false, users);
            var asks := id in db.requests && db.requests[id].user == user && db.requests[id].updated <= now
                        && Asks(db.requests[id], item);
            if Wishes(db, user, item, now) && (Raisable(db, a) || Waiting(db, a)) then
              if asks then (a, id) in next.matches && next.matches[(a, id)] == db.requests[id].revision
              else if Waiting(db, a) || a !in db.alerts then SameLink(db, next, (a, id))
              else (a, id) !in next.matches
            else SameLink(db, next, (a, id))
  {
    var seen := Observed(db, item, now, false);
    SeenKeeps(db, item, now, AlertId(user, item.id));
    SameWatchesKeep(db, seen);
    VisitedWish(seen, users, item, now, user);
    HitsAsk(seen, item, now);
    NotifiedAllLinks(seen, users, item, now, Hits(seen, item, now), (AlertId(user, item.id), id));
  }

  /** So a fresh alert to a ready member is fit to be sent. */
  lemma FreshIsFit(db: Db, item: Item, now: Time, users: seq<UserId>, user: UserId)
    requires WatchInv(db) && item.available
    requires var seen := Observed(db, item, now, false); VisitsHits(seen, users, Hits(seen, item, now))
    requires Raisable(db, AlertId(user, item.id)) && Wishes(db, user, item, now)
    requires user in db.users && db.users[user].status == Ready
    ensures Fit(MatchItem(db, item, now, false, users), AlertId(user, item.id), now)
  {
    var a, next := AlertId(user, item.id), MatchItem(db, item, now, false, users);
    AlertedMembers(db, item, now, users, user);
    var seen := Observed(db, item, now, false);
    WatchesStay(seen, users, item, now, Hits(seen, item, now));
    UsersStay(seen, users, item, now, Hits(seen, item, now));
    var id :| id in db.requests && db.requests[id].user == user && db.requests[id].updated <= now
              && Asks(db.requests[id], item);
    LinkedWatches(db, item, now, users, user, id);
    assert StillAsked(next, a);
  }

  lemma {:induction false} UsersStay(db: Db, users: seq<UserId>, item: Item, now: Time, hits: set<RequestId>)
    ensures NotifyAll(db, users, item, now, hits).users == db.users
    decreases |users|
  {
    if users != [] { UsersStay(db, users[..|users| - 1], item, now, hits); }
  }
}
