/** The request store as it runs: watches, index, alerts and matches updated in place, each
    method proved against its transaction. */
module RequestStore {
  import opened Basics
  import opened Ranking
  import opened RequestTables
  import opened RequestIndex
  import opened RequestMeaning
  import opened RequestRun

  /** One intake batch: nothing happens unless some watch is old enough; each item is then
      matched, visiting the members with hits in some order. */
  function MatchAll(db: Db, items: seq<Item>, now: Time, seedOnly: bool, visits: seq<seq<UserId>>): Db
    requires |visits| == |items|
  {
    if items == [] then db.(alerts := ExpireAlerts(db.alerts, now))
    else
      var n := |items| - 1;
      MatchItem(MatchAll(db, items[..n], now, seedOnly, visits[..n]), items[n], now, seedOnly, visits[n])
  }

  ghost predicate VisitsAll(db: Db, items: seq<Item>, now: Time, seedOnly: bool, visits: seq<seq<UserId>>)
    requires |visits| == |items|
  {
    forall i | 0 <= i < |items| && !seedOnly && items[i].available ::
      var seen := Observed(MatchAll(db, items[..i], now, seedOnly, visits[..i]), items[i], now, seedOnly);
      VisitsHits(seen, visits[i], Hits(seen, items[i], now))
  }

  predicate AnyWatch(db: Db, now: Time) {
    exists id | id in db.requests :: db.requests[id].updated <= now
  }

  lemma {:induction false} MatchAllKeeps(db: Db, items: seq<Item>, now: Time, seedOnly: bool, visits: seq<seq<UserId>>)
    requires WatchInv(db) && |visits| == |items|
    ensures WatchInv(MatchAll(db, items, now, seedOnly, visits))
    ensures SameWatches(db, MatchAll(db, items, now, seedOnly, visits))
  {
    if items == [] {
      SameWatchesKeep(db, MatchAll(db, items, now, seedOnly, visits));
    } else {
      var n := |items| - 1;
      MatchAllKeeps(db, items[..n], now, seedOnly, visits[..n]);
      MatchItemKeeps(MatchAll(db, items[..n], now, seedOnly, visits[..n]), items[n], now, seedOnly, visits[n]);
    }
  }

  /** Trying the rows from i on, counted from the first. */
  function TryRest(db: Db, rows: seq<AlertId>, tokens: seq<Token>, i: nat, now: Time): (Db, nat)
    requires i <= |rows| <= |tokens| && forall a | a in rows :: a in db.alerts
  {
    var (after, n) := TryRows(db, rows[i..], tokens[i..], now);
    (after, i + n)
  }

  lemma TryNext(db: Db, rows: seq<AlertId>, tokens: seq<Token>, i: nat, now: Time)
    requires i < |rows| <= |tokens| && forall a | a in rows :: a in db.alerts
    ensures rows[i] in db.alerts
    ensures var leased := LeaseAlert(db, rows[i], tokens[i], now);
            && (forall a | a in rows :: a in CancelAlert(leased, rows[i]).alerts)
            && TryRest(db, rows, tokens, i, now)
               == if Hydrates(leased, rows[i], now) then (leased, i)
                  else TryRest(CancelAlert(leased, rows[i]), rows, tokens, i + 1, now)
  {
    assert rows[i] in rows;
    assert rows[i..][0] == rows[i] && rows[i..][1..] == rows[i + 1..];
    assert tokens[i..][0] == tokens[i] && tokens[i..][1..] == tokens[i + 1..];
  }

  class RequestStore {
    var users: map<UserId, User>
    var requests: map<RequestId, Request>
    var nextId: RequestId
    var keywords: map<(string, RequestId), nat>
    var alerts: map<AlertId, Alert>
    var matches: map<(AlertId, RequestId), nat>

    function Tables(): Db
      reads this
    {
      Db(users, requests, nextId, keywords, alerts, matches)
    }

    ghost predicate Valid()
      reads this
    {
      WatchInv(Tables())
    }

    constructor ()
      ensures Valid() && Tables() == EMPTY
    {
      users, requests, nextId, keywords := map[], map[], 1, map[];
      alerts, matches := map[], map[];
      new;
      EmptyWatches();
    }

    // -------------------------------------------------------------- watches

    /** INSERT INTO personal_requests, with the keyword trigger. */
    method InsertRow(user: UserId, m: Matcher, minimum: Option<nat>, now: Time)
      requires user in users
      modifies this
      ensures Tables() == Insert(old(Tables()), user, m, minimum, now) && users == old(users)
    {
      var r := Request(user, m, 1, now, minimum);
      requests := requests[nextId := r];
      keywords := Index(keywords, nextId, r);
      nextId := nextId + 1;
    }

    /** Check the whole batch against what is saved: nothing is written before it passes. */
    method ValidateAdd(user: UserId, queries: seq<Matcher>, minimum: Option<nat>, specified: bool, bulk: bool)
      returns (ok: bool)
      ensures ok == MayAdd(Tables(), user, queries, bulk, minimum, specified)
    {
      var additions := 0;
      for i := 0 to |queries|
        invariant additions == Additions(Tables(), user, queries[..i])
        invariant forall m | m in queries[..i] :: MayJoin(Tables(), user, m, bulk, minimum, specified)
      {
        assert queries[..i + 1] == queries[..i] + [queries[i]];
        assert queries[..i + 1][..i] == queries[..i];
        if !MayJoin(Tables(), user, queries[i], bulk, minimum, specified) {
          return false;
        }
        if !HasMatcher(Tables(), user, queries[i]) { additions := additions + 1; }
      }
      assert queries[..|queries|] == queries;
      ok := |RequestTables.Owned(Tables(), user)| + additions <= MAX_REQUESTS;
    }

    /** Save a batch of distinct parsed queries, all or nothing. */
    method AddMany(user: UserId, queries: seq<Matcher>, minimum: Option<nat>, specified: bool, bulk: bool,
                   now: Time) returns (saved: bool)
      requires Valid() && Keywords({}) !in queries && Distinct(queries)
      modifies this
      ensures Valid()
      ensures saved == MayAdd(old(Tables()), user, queries, bulk, minimum, specified)
      ensures Tables() == if saved then AddAll(old(Tables()), user, queries, minimum, now) else old(Tables())
    {
      saved := ValidateAdd(user, queries, minimum, specified, bulk);
      if saved {
        AddAllKeeps(Tables(), user, queries, minimum, now);
        SaveNew(user, queries, minimum, now);
      }
    }

    method SaveNew(user: UserId, queries: seq<Matcher>, minimum: Option<nat>, now: Time)
      modifies this
      ensures Tables() == AddAll(old(Tables()), user, queries, minimum, now)
    {
      ghost var start := Tables();
      var existing := set m | m in queries && HasMatcher(Tables(), user, m);
      users := if user in users then users else users[user := User(NeedsTest, None)];
      for i := 0 to |queries|
        invariant Tables() == AddAll(start, user, queries[..i], minimum, now) && user in users
      {
        assert queries[..i + 1][..i] == queries[..i];
        if queries[i] !in existing {
          InsertRow(user, queries[i], minimum, now);
        }
      }
      assert queries[..|queries|] == queries;
    }

    /** Orphaned alerts lose their last current match and are cancelled. */
    method CancelOrphanAlerts()
      modifies this`alerts
      ensures Tables() == CancelOrphans(old(Tables()))
      ensures forall a | a in alerts && alerts[a].Unsent() :: HasCurrentMatch(Tables(), a)
    {
      alerts := map a | a in alerts ::
        if alerts[a].Unsent() && !HasCurrentMatch(Tables(), a)
        then alerts[a].(state := Cancelled) else alerts[a];
    }

    method EditWatch(user: UserId, id: RequestId, m: Matcher, minimum: Option<nat>, specified: bool, now: Time)
      returns (saved: bool)
      requires Valid() && m != Keywords({})
      modifies this
      ensures Valid() && saved == MayEdit(old(Tables()), user, id, m)
      ensures saved ==> Tables() == Edit(old(Tables()), user, id, m,
                          if specified then minimum else old(requests)[id].minimum, now)
      ensures !saved ==> Tables() == old(Tables())
    {
      saved := MayEdit(Tables(), user, id, m);
      if !saved {
        return;
      }
      var least := if specified then minimum else requests[id].minimum;
      EditKeeps(Tables(), user, id, m, least, now);
      ReplaceRow(user, id, m, least, now);
    }

    /** UPDATE personal_requests, with the keyword trigger; the old revision's matches are forgotten. */
    method ReplaceRow(user: UserId, id: RequestId, m: Matcher, minimum: Option<nat>, now: Time)
      requires id in requests
      modifies this
      ensures Tables() == Edit(old(Tables()), user, id, m, minimum, now)
    {
      SaveRow(id, Request(user, m, requests[id].revision + 1, now, minimum));
      CancelOrphanAlerts();
    }

    method SaveRow(id: RequestId, r: Request)
      requires id in requests
      modifies this`requests, this`keywords, this`matches
      ensures Tables() == old(Tables()).(requests := old(requests)[id := r],
                                         keywords := Index(Unindex(old(keywords), {id}), id, r),
                                         matches := DropMatches(old(matches), {id}))
    {
      requests := requests[id := r];
      keywords := Index(Unindex(keywords, {id}), id, r);
      matches := DropMatches(matches, {id});
    }

    method DeleteWatch(user: UserId, id: RequestId) returns (deleted: bool)
      requires Valid()
      modifies this
      ensures Valid() && deleted == (id in old(requests) && old(requests)[id].user == user)
      ensures Tables() == if deleted then Delete(old(Tables()), id) else old(Tables())
    {
      deleted := id in requests && requests[id].user == user;
      if deleted {
        DeleteKeeps(Tables(), id);
        requests := requests - {id};
        keywords := Unindex(keywords, {id});
        matches := DropMatches(matches, {id});
        CancelOrphanAlerts();
      }
    }

    method RevokeUser(user: UserId)
      requires Valid()
      modifies this
      ensures Valid() && Tables() == Revoke(old(Tables()), user)
    {
      RevokeKeeps(Tables(), user);
      var ids := RequestTables.Owned(Tables(), user);
      matches := DropMatches(matches, ids);
      requests := requests - ids;
      keywords := Unindex(keywords, ids);
      users := if user in users then users[user := users[user].(status := NeedsTest)] else users;
      alerts := map a | a in alerts ::
        if a.user == user && alerts[a].Unsent() then alerts[a].(state := Cancelled) else alerts[a];
    }

    method SetDmStatus(user: UserId, status: DmStatus, channel: Option<nat>)
      requires Valid()
      modifies this
      ensures Valid() && Tables() == SetDm(old(Tables()), user, status, channel)
      ensures user in users && users[user].status == status
      ensures channel.None? && user in old(users) ==> users[user].channel == old(users)[user].channel
    {
      SameWatchesKeep(Tables(), SetDm(Tables(), user, status, channel));
      var kept := if channel.None? && user in users then users[user].channel else channel;
      users := users[user := User(status, kept)];
    }

    // -------------------------------------------------------------- intake

    method MatchRequests(items: seq<Item>, now: Time, seedOnly: bool) returns (ghost visits: seq<seq<UserId>>)
      requires Valid()
      modifies this
      ensures Valid() && |visits| == |items|
      ensures if AnyWatch(old(Tables()), now) then
                && VisitsAll(old(Tables()), items, now, seedOnly, visits)
                && Tables() == MatchAll(old(Tables()), items, now, seedOnly, visits)
              else Tables() == old(Tables())
    {
      visits := [];
      ghost var start := Tables();
      if !AnyWatch(Tables(), now) {
        visits := seq(|items|, _ => []);
        return;
      }
      visits := MatchEach(items, now, seedOnly);
      MatchAllKeeps(start, items, now, seedOnly, visits);
    }

    /** Every observation of the batch, behind the expiry of overdue alerts. */
    method MatchEach(items: seq<Item>, now: Time, seedOnly: bool) returns (ghost visits: seq<seq<UserId>>)
      requires Valid()
      modifies this`alerts, this`matches
      ensures |visits| == |items| && VisitsAll(old(Tables()), items, now, seedOnly, visits)
      ensures Tables() == MatchAll(old(Tables()), items, now, seedOnly, visits)
    {
      visits := [];
      ghost var start := Tables();
      alerts := ExpireAlerts(alerts, now);
      SameWatchesKeep(start, Tables());
      for i := 0 to |items|
        invariant Valid() && |visits| == i
        invariant VisitsAll(start, items[..i], now, seedOnly, visits)
        invariant Tables() == MatchAll(start, items[..i], now, seedOnly, visits)
      {
        ghost var visited := MatchOne(items[i], now, seedOnly);
        MatchedMore(start, items[..i], items[i], now, seedOnly, visits, visited);
        assert items[..i + 1] == items[..i] + [items[i]];
        visits := visits + [visited];
      }
      assert items[..|items|] == items;
    }

    /** One observation: refresh unsent alerts, withdraw or notify every member with a hit. */
    method MatchOne(item: Item, now: Time, seedOnly: bool) returns (ghost visited: seq<UserId>)
      requires Valid()
      modifies this`alerts, this`matches
      ensures Valid()
      ensures !seedOnly && item.available ==>
                forall user :: MemberTold(old(Tables()), Tables(), user, item, now)
      ensures Tables() == MatchItem(old(Tables()), item, now, seedOnly, visited)
      ensures !seedOnly && item.available ==>
                var seen := Observed(old(Tables()), item, now, seedOnly);
                VisitsHits(seen, visited, Hits(seen, item, now))
    {
      visited := [];
      ghost var start := Tables();
      alerts := Refresh(alerts, item, now);
      if seedOnly || !item.available {
        alerts := Withdraw(alerts, item.id);
        SameWatchesKeep(start, Tables());
        return;
      }
      visited := NotifyHits(item, now, Hits(Tables(), item, now));
      MatchItemKeeps(start, item, now, seedOnly, visited);
      forall user ensures MemberTold(start, Tables(), user, item, now) {
        AlertedMembers(start, item, now, visited, user);
      }
    }

    /** Every member with a hit is notified once, in some order. */
    method NotifyHits(item: Item, now: Time, hits: set<RequestId>) returns (ghost visited: seq<UserId>)
      requires hits == Hits(Tables(), item, now)
      modifies this`alerts, this`matches
      ensures Tables() == NotifyAll(old(Tables()), visited, item, now, hits)
      ensures VisitsHits(old(Tables()), visited, hits)
    {
      visited := [];
      ghost var seen := Tables();
      var left := set id | id in hits :: requests[id].user;
      ghost var all := left;
      while left != {}
        invariant left <= all && Distinct(visited)
        invariant forall u :: u in all <==> u in left || u in visited
        invariant forall u | u in visited :: u !in left
        invariant Tables() == NotifyAll(seen, visited, item, now, hits)
        invariant requests == seen.requests && users == seen.users
        decreases |left|
      {
        var u :| u in left;
        left := left - {u};
        NotifyMember(u, item, now, hits);
        assert (visited + [u])[..|visited|] == visited;
        visited := visited + [u];
      }
    }

    method NotifyMember(user: UserId, item: Item, now: Time, hits: set<RequestId>)
      modifies this`alerts, this`matches
      ensures Tables() == Notify(old(Tables()), user, item, now, hits)
    {
      var a := AlertId(user, item.id);
      if a !in alerts {
        alerts := alerts[a := NewAlert(item, now)];
      } else if alerts[a].Rearmable() {
        matches := Unlink(matches, a);
        alerts := alerts[a := NewAlert(item, now)];
      }
      if alerts[a].Unsent() {
        matches := LinkHits(matches, a, OwnHits(requests, user, hits));
      }
    }

    // -------------------------------------------------------------- outbox

    method Claim(now: Time, tokens: seq<Token>) returns (claimed: Option<(AlertId, Token)>, ghost rows: seq<AlertId>)
      requires Valid() && |tokens| >= 20
      modifies this
      ensures Valid() && TopOf(DueAlerts(Swept(old(Tables()), now), now), 20, rows) && |rows| <= 20
      ensures forall a | a in rows :: a in Swept(old(Tables()), now).alerts
      ensures var (db, n) := TryRows(Swept(old(Tables()), now), rows, tokens, now);
              && Tables() == db
              && claimed == (if n < |rows| then Some((rows[n], tokens[n])) else None)
      ensures claimed.Some? <==> exists a :: a in rows && Fit(Swept(old(Tables()), now), a, now)
      ensures claimed.Some? ==> Sendable(Tables(), claimed.value.0, now)
                                && alerts[claimed.value.0].token == Some(claimed.value.1)
    {
      ghost var start := Tables();
      alerts := RetireAlerts(alerts, now);
      CancelOrphanAlerts();
      SameWatchesKeep(start, Tables());
      var due := TopRows(DueAlerts(Tables(), now), 20);
      rows := due;
      forall a | a in rows ensures a in alerts { assert a in DueAlerts(Tables(), now); }
      TryRowsWatches(Tables(), rows, tokens, now);
      SameWatchesKeep(Tables(), TryRows(Tables(), rows, tokens, now).0);
      ghost var swept := Tables();
      claimed := LeaseFirst(due, tokens, now);
      ClaimSucceedsIff(swept, rows, tokens, now);
      ClaimedIsSendable(swept, rows, tokens, now);
    }

    /** Invalidated rows are cancelled without starving a later valid member. */
    method LeaseFirst(due: seq<AlertId>, tokens: seq<Token>, now: Time) returns (claimed: Option<(AlertId, Token)>)
      requires |tokens| >= |due| && forall a | a in due :: a in alerts
      modifies this`alerts
      ensures forall a | a in due :: a in old(alerts)
      ensures var (db, n) := TryRows(old(Tables()), due, tokens, now);
              && Tables() == db
              && claimed == (if n < |due| then Some((due[n], tokens[n])) else None)
    {
      ghost var start := Tables();
      claimed := None;
      for i := 0 to |due|
        invariant forall a | a in due :: a in alerts
        invariant TryRows(start, due, tokens, now) == TryRest(Tables(), due, tokens, i, now)
      {
        TryNext(Tables(), due, tokens, i, now);
        var valid := TryLease(due[i], tokens[i], now);
        if valid {
          return Some((due[i], tokens[i]));
        }
      }
    }

    method TryLease(a: AlertId, token: Token, now: Time) returns (valid: bool)
      requires a in alerts
      modifies this`alerts
      ensures alerts.Keys == old(alerts).Keys
      ensures var leased := LeaseAlert(old(Tables()), a, token, now);
              && valid == Hydrates(leased, a, now)
              && Tables() == if valid then leased else CancelAlert(leased, a)
    {
      alerts := alerts[a := alerts[a].(state := Leased, token := Some(token), leaseUntil := Some(now + LEASE))];
      valid := Hydrates(Tables(), a, now);
      if !valid { alerts := alerts[a := alerts[a].(state := Cancelled)]; }
    }

    /** A read-only revalidation of a held alert. */
    predicate Validates(a: AlertId, token: Token, now: Time)
      reads this
    {
      Holds(Tables(), a, token) && Hydrates(Tables(), a, now)
    }

    method CommitSend(a: AlertId, token: Token, channel: Option<nat>, now: Time) returns (committed: bool)
      requires Valid()
      modifies this`alerts
      ensures Valid() && (Tables(), committed) == BeginSend(old(Tables()), a, token, channel, now)
      ensures committed <==> Sendable(old(Tables()), a, now) && old(alerts)[a].token == Some(token)
    {
      SameWatchesKeep(Tables(), BeginSend(Tables(), a, token, channel, now).0);
      CommitsExactly(Tables(), a, token, channel, now);
      committed := Validates(a, token, now);
      if committed {
        var to := if channel.Some? then channel else users[a.user].channel;
        alerts := alerts[a := alerts[a].(state := Sending, attempts := alerts[a].attempts + 1, channel := to)];
      }
    }

    method SettleAlert(a: AlertId, token: Token, state: AlertState, messageId: Option<nat>)
      returns (settled: bool, valid: bool)
      requires Valid()
      modifies this`alerts
      ensures Valid() && valid == (state.Sent? || state.Failed? || state.Cancelled? || state.Review?)
      ensures !valid ==> !settled && Tables() == old(Tables())
      ensures valid ==> (Tables(), settled) == Settle(old(Tables()), a, token, state, messageId)
    {
      valid := state.Sent? || state.Failed? || state.Cancelled? || state.Review?;
      if !valid {
        return false, false;
      }
      SameWatchesKeep(Tables(), Settle(Tables(), a, token, state, messageId).0);
      settled := MaySettle(Tables(), a, token);
      if settled {
        alerts := alerts[a := alerts[a].(state := state, messageId := messageId)];
      }
    }

    method RetryAlert(a: AlertId, token: Token, now: Time, delay: Time) returns (retried: bool)
      requires Valid()
      modifies this`alerts
      ensures Valid() && (Tables(), retried) == Retry(old(Tables()), a, token, now, delay)
    {
      SameWatchesKeep(Tables(), Retry(Tables(), a, token, now, delay).0);
      retried := MaySettle(Tables(), a, token);
      if retried {
        alerts := alerts[a := alerts[a].(state := Pending, nextAttempt := now + Max(0.05, delay),
                                         token := None, leaseUntil := None)];
      }
    }
  }

  lemma VisitsExtend(db: Db, items: seq<Item>, now: Time, seedOnly: bool, visits: seq<seq<UserId>>)
    requires |visits| == |items| > 0
    requires var n := |items| - 1; VisitsAll(db, items[..n], now, seedOnly, visits[..n])
    requires var n := |items| - 1;
             !seedOnly && items[n].available ==>
               var seen := Observed(MatchAll(db, items[..n], now, seedOnly, visits[..n]), items[n], now, seedOnly);
               VisitsHits(seen, visits[n], Hits(seen, items[n], now))
    ensures VisitsAll(db, items, now, seedOnly, visits)
  {
    var n := |items| - 1;
    forall i | 0 <= i < |items| && !seedOnly && items[i].available
      ensures var seen := Observed(MatchAll(db, items[..i], now, seedOnly, visits[..i]), items[i], now, seedOnly);
              VisitsHits(seen, visits[i], Hits(seen, items[i], now))
    {
      if i < n {
        assert items[..n][..i] == items[..i] && visits[..n][..i] == visits[..i];
        assert items[..n][i] == items[i] && visits[..n][i] == visits[i];
      }
    }
  }

  /** One observation more. */
  lemma MatchedMore(db: Db, front: seq<Item>, item: Item, now: Time, seedOnly: bool, visits: seq<seq<UserId>>,
                    visited: seq<UserId>)
    requires |visits| == |front| && VisitsAll(db, front, now, seedOnly, visits)
    requires !seedOnly && item.available ==>
               var seen := Observed(MatchAll(db, front, now, seedOnly, visits), item, now, seedOnly);
               VisitsHits(seen, visited, Hits(seen, item, now))
    ensures VisitsAll(db, front + [item], now, seedOnly, visits + [visited])
    ensures MatchAll(db, front + [item], now, seedOnly, visits + [visited])
            == MatchItem(MatchAll(db, front, now, seedOnly, visits), item, now, seedOnly, visited)
  {
    var items, all := front + [item], visits + [visited];
    assert items[..|items| - 1] == front && all[..|items| - 1] == visits;
    VisitsExtend(db, items, now, seedOnly, all);
  }
}
