/** The request store told on its rows: what each change of watches, each sweep and each settlement
    leaves of watches, links and alerts. */
module RequestRows {
  import opened Basics
  import opened Ranking
  import opened RequestTables

  // ---------------------------------------------------------------- watches

  /** The member has this matcher already. */
  predicate Has(db: Db, user: UserId, m: Matcher) {
    exists id | id in db.requests :: db.requests[id].user == user && db.requests[id].matcher == m
  }

  /** New watches are saved under fresh ids at revision one; the others stay as they are. */
  ghost predicate SavedFor(db: Db, next: Db, user: UserId, queries: seq<Matcher>, minimum: Option<nat>, now: Time) {
    && (forall id | id in db.requests :: id in next.requests && next.requests[id] == db.requests[id])
    && (forall id | id in next.requests && id !in db.requests ::
          && next.requests[id].user == user && next.requests[id].matcher in queries
          && next.requests[id].revision == 1 && next.requests[id].updated == now
          && next.requests[id].minimum == minimum)
    && next.matches == db.matches && next.alerts == db.alerts
    && (forall u | u in db.users :: u in next.users && next.users[u] == db.users[u])
    && user in next.users && (user !in db.users ==> next.users[user] == User(NeedsTest, None))
  }

  lemma {:induction false} AddTold(db: Db, user: UserId, queries: seq<Matcher>, minimum: Option<nat>, now: Time)
    requires forall id | id in db.requests :: id < db.nextId
    ensures var next := AddAll(db, user, queries, minimum, now);
            && SavedFor(db, next, user, queries, minimum, now) && db.nextId <= next.nextId
            && (forall id | id in next.requests :: id < next.nextId)
    decreases |queries|
  {
    if queries != [] {
      var n := |queries| - 1;
      AddTold(db, user, queries[..n], minimum, now);
      assert queries == queries[..n] + [queries[n]];
    }
  }

  /** A batch is refused for a query saved already, unless watches may be reused and any minimum given is
      the saved one; and for more than ten watches in the end. */
  lemma AddAllowed(db: Db, user: UserId, queries: seq<Matcher>, reuse: bool, minimum: Option<nat>, specified: bool)
    ensures MayAdd(db, user, queries, reuse, minimum, specified) <==>
            && (forall id | id in db.requests && db.requests[id].user == user && db.requests[id].matcher in queries ::
                  reuse && (!specified || db.requests[id].minimum == minimum))
            && |OwnWatches(db, user)| + Additions(db, user, queries) <= 10
  {
    assert OwnWatches(db, user) == Owned(db, user);
  }

  ghost function OwnWatches(db: Db, user: UserId): set<RequestId> {
    set id | id in db.requests && db.requests[id].user == user
  }

  /** The queries of the batch that the member does not have. */
  lemma {:induction false} AdditionsCount(db: Db, user: UserId, queries: seq<Matcher>)
    requires Distinct(queries)
    ensures Additions(db, user, queries) == |Novel(db, user, queries)|
    decreases |queries|
  {
    if queries == [] {
      assert Novel(db, user, queries) == {};
    } else {
      var n := |queries| - 1;
      AdditionsMore(db, user, queries);
      AdditionsCount(db, user, queries[..n]);
      NovelMore(db, user, queries[..n], queries[n]);
      assert queries == queries[..n] + [queries[n]];
    }
  }

  ghost function Novel(db: Db, user: UserId, queries: seq<Matcher>): set<Matcher> {
    set m | m in queries && !Has(db, user, m)
  }

  lemma AdditionsMore(db: Db, user: UserId, queries: seq<Matcher>)
    requires queries != [] && Distinct(queries)
    ensures var n := |queries| - 1;
            && queries[n] !in queries[..n] && Distinct(queries[..n])
            && Additions(db, user, queries)
               == Additions(db, user, queries[..n]) + if Has(db, user, queries[n]) then 0 else 1
  {
  }

  lemma NovelMore(db: Db, user: UserId, front: seq<Matcher>, m: Matcher)
    requires m !in front
    ensures Novel(db, user, front + [m]) == if Has(db, user, m) then Novel(db, user, front)
                                            else Novel(db, user, front) + {m}
    ensures m !in Novel(db, user, front)
  {
  }

  /** Whether some link of the alert is to a watch as it is now. */
  predicate Linked(db: Db, a: AlertId) {
    exists id | id in db.requests :: (a, id) in db.matches && db.matches[(a, id)] == db.requests[id].revision
  }

  /** Alerts that wait without a current link are cancelled; no other alert moves. */
  ghost predicate OrphansGone(db: Db, next: Db) {
    && next.alerts.Keys == db.alerts.Keys
    && forall a | a in db.alerts ::
         next.alerts[a] == if db.alerts[a].state in {Pending, Leased} && !Linked(next, a)
                           then db.alerts[a].(state := Cancelled) else db.alerts[a]
  }

  /** Links to the given watches are gone, all others stay. */
  ghost predicate Unlinked(db: Db, next: Db, ids: set<RequestId>) {
    && (forall k | k in next.matches :: k in db.matches && next.matches[k] == db.matches[k])
    && (forall k | k in db.matches :: k in next.matches <==> k.1 !in ids)
  }

  lemma OrphansTold(db: Db)
    ensures var next := CancelOrphans(db);
            OrphansGone(db, next) && next == db.(alerts := next.alerts)
  {
    forall a | a in db.alerts ensures HasCurrentMatch(db, a) <==> Linked(CancelOrphans(db), a) {}
  }

  /** An edited watch is a new revision, saved now, without its old links. */
  lemma EditTold(db: Db, user: UserId, id: RequestId, m: Matcher, minimum: Option<nat>, now: Time)
    requires id in db.requests
    ensures var next := Edit(db, user, id, m, minimum, now);
            && next.requests == db.requests[id := next.requests[id]] && next.users == db.users
            && next.requests[id].user == user && next.requests[id].matcher == m && next.requests[id].minimum == minimum
            && next.requests[id].revision == db.requests[id].revision + 1 && next.requests[id].updated == now
            && Unlinked(db, next, {id}) && OrphansGone(db, next)
  {
    var r := Request(user, m, db.requests[id].revision + 1, now, minimum);
    OrphansTold(db.(requests := db.requests[id := r], keywords := Index(Unindex(db.keywords, {id}), id, r),
                    matches := DropMatches(db.matches, {id})));
  }

  lemma DeleteTold(db: Db, id: RequestId)
    ensures var next := Delete(db, id);
            && next.requests == db.requests - {id} && next.users == db.users
            && Unlinked(db, next, {id}) && OrphansGone(db, next)
  {
    OrphansTold(Remove(db, {id}));
  }

  /** A revoked member has no watch, must test the DM again, and gets nothing that was not being sent. */
  lemma RevokeTold(db: Db, user: UserId)
    ensures var next := Revoke(db, user);
            && (forall id :: id in next.requests <==> id in db.requests && db.requests[id].user != user)
            && (forall id | id in next.requests :: next.requests[id] == db.requests[id])
            && next.users.Keys == db.users.Keys
            && (forall u | u in db.users ::
                  next.users[u] == if u == user then User(NeedsTest, db.users[u].channel) else db.users[u])
            && next.alerts.Keys == db.alerts.Keys
            && (forall a | a in db.alerts ::
                  next.alerts[a] == if a.user == user && db.alerts[a].state in {Pending, Leased}
                                    then db.alerts[a].(state := Cancelled) else db.alerts[a])
            && (forall k | k in next.matches :: k in db.matches && next.matches[k] == db.matches[k])
            && (forall k | k in db.matches ::
                  k in next.matches <==> !(k.1 in db.requests && db.requests[k.1].user == user))
  {
  }

  // ---------------------------------------------------------------- sweeps and settlements

  /** An interrupted send is left to review; what waits past its time expires. */
  predicate Retired(r: Alert, q: Alert, now: Time) {
    q == if r.state == Sending && r.leaseUntil.Some? && r.leaseUntil.value <= now then r.(state := Review)
         else if r.state in {Pending, Leased} && r.expires <= now then r.(state := Expired)
         else r
  }

  lemma RetireTold(db: Db, now: Time)
    ensures var next := RetireAlerts(db.alerts, now);
            next.Keys == db.alerts.Keys && forall a | a in db.alerts :: Retired(db.alerts[a], next[a], now)
    ensures var next := ExpireAlerts(db.alerts, now);
            && next.Keys == db.alerts.Keys
            && forall a | a in db.alerts ::
                 next[a] == if db.alerts[a].state in {Pending, Leased} && db.alerts[a].expires <= now
                            then db.alerts[a].(state := Expired) else db.alerts[a]
  {
  }

  ghost predicate OnlyAlert(db: Db, next: Db, a: AlertId) {
    && a in db.alerts && next == db.(alerts := next.alerts) && next.alerts.Keys == db.alerts.Keys
    && forall o | o in db.alerts && o != a :: next.alerts[o] == db.alerts[o]
  }

  /** The holder of a leased or sending alert settles it, once. */
  lemma SettleTold(db: Db, a: AlertId, token: Token, state: AlertState, messageId: Option<nat>)
    ensures var (next, ok) := Settle(db, a, token, state, messageId);
            && (ok <==> a in db.alerts && db.alerts[a].token == Some(token) && db.alerts[a].state in {Leased, Sending})
            && (!ok ==> next == db)
            && (ok ==> OnlyAlert(db, next, a)
                       && next.alerts[a] == db.alerts[a].(state := state, messageId := messageId))
  {
  }

  /** Given back, it waits for the delay, a twentieth of a second at least, and belongs to nobody. */
  lemma RetryTold(db: Db, a: AlertId, token: Token, now: Time, delay: Time)
    ensures var (next, ok) := Retry(db, a, token, now, delay);
            && (ok <==> a in db.alerts && db.alerts[a].token == Some(token) && db.alerts[a].state in {Leased, Sending})
            && (!ok ==> next == db)
            && (ok ==>
                  && OnlyAlert(db, next, a)
                  && next.alerts[a] == db.alerts[a].(state := Pending, token := None, leaseUntil := None,
                                                     nextAttempt := next.alerts[a].nextAttempt)
                  && next.alerts[a].nextAttempt >= now + delay && next.alerts[a].nextAttempt >= now + 0.05
                  && (next.alerts[a].nextAttempt == now + delay || next.alerts[a].nextAttempt == now + 0.05))
  {
  }

  /** A committed send is counted and remembers where it goes. */
  lemma BeginTold(db: Db, a: AlertId, token: Token, channel: Option<nat>, now: Time)
    ensures var (next, ok) := BeginSend(db, a, token, channel, now);
            && (!ok ==> next == db)
            && (ok ==>
                  && OnlyAlert(db, next, a) && a.user in db.users
                  && next.alerts[a] == db.alerts[a].(state := Sending, attempts := db.alerts[a].attempts + 1,
                                                     channel := next.alerts[a].channel)
                  && next.alerts[a].channel == if channel == None then db.users[a.user].channel else channel)
  {
  }
}
