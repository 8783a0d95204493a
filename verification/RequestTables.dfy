/** Private watches and the personal alert outbox: the tables and their transactions.

    Titles and queries appear only as their normalized word sets. One alert exists per
    (member, product); its hashed id is the pair itself. */
module RequestTables {
  import opened Basics
  import opened Ranking

  type UserId = nat
  type ItemId = string
  type RequestId = nat
  type Token = nat

  const MAX_REQUESTS := 10
  const ALERT_LIFETIME: Time := 1200.0
  const LEASE: Time := 60.0

  /** A normalized observation; words are the normalized words of its title. */
  datatype Item = Item(id: ItemId, available: bool, valueCents: Option<nat>, words: set<string>)

  /** An exact product, or a conjunction of distinct whole words. */
  datatype Matcher = Exact(item: ItemId) | Keywords(tokens: set<string>)

  datatype Request = Request(
    user: UserId, matcher: Matcher, revision: nat, updated: Time, minimum: Option<nat>)

  datatype DmStatus = NeedsTest | Ready | Blocked

  datatype User = User(status: DmStatus, channel: Option<nat>)

  datatype AlertId = AlertId(user: UserId, item: ItemId)

  datatype AlertState = Pending | Leased | Sending | Sent | Failed | Cancelled | Expired | Review

  datatype Alert = Alert(
    payload: Item, observed: Time, created: Time, expires: Time, state: AlertState,
    nextAttempt: Time, attempts: nat, token: Option<Token>, leaseUntil: Option<Time>,
    channel: Option<nat>, messageId: Option<nat>)
  {
    predicate Unsent() {
      state.Pending? || state.Leased?
    }

    /** Definitely unsent: a new live observation may try again. */
    predicate Rearmable() {
      state.Cancelled? || state.Expired? || state.Failed?
    }
  }

  datatype Db = Db(
    users: map<UserId, User>, requests: map<RequestId, Request>, nextId: RequestId,
    keywords: map<(string, RequestId), nat>, alerts: map<AlertId, Alert>,
    matches: map<(AlertId, RequestId), nat>)

  const EMPTY := Db(map[], map[], 1, map[], map[], map[])

  // ---------------------------------------------------------------- matching

  /** The final matcher, with the minimum value checked first. */
  predicate Matches(r: Request, item: Item) {
    && (r.minimum.Some? ==> item.valueCents.Some? && item.valueCents.value >= r.minimum.value)
    && match r.matcher {
         case Exact(id) => id == item.id
         case Keywords(tokens) => tokens <= item.words
       }
  }

  /** Index rows of one request whose token is a word of the title and whose revision is current. */
  function IndexHits(db: Db, id: RequestId, words: set<string>): set<string>
    requires id in db.requests
  {
    set w | w in words && (w, id) in db.keywords && db.keywords[(w, id)] == db.requests[id].revision
  }

  /** The two indexed lookups of the candidate query, with its GROUP BY and HAVING. */
  predicate IsCandidate(db: Db, id: RequestId, item: Item, now: Time) {
    && id in db.requests
    && db.requests[id].updated <= now
    && match db.requests[id].matcher {
         case Exact(product) => product == item.id
         case Keywords(tokens) =>
           var hits := IndexHits(db, id, item.words); hits != {} && |hits| == |tokens|
       }
  }

  function CandidateRequests(db: Db, item: Item, now: Time): set<RequestId> {
    set id | id in db.requests && IsCandidate(db, id, item, now)
  }

  /** Requests that the candidate query and the final matcher both accept. */
  function Hits(db: Db, item: Item, now: Time): set<RequestId> {
    set id | id in CandidateRequests(db, item, now) && Matches(db.requests[id], item)
  }

  /** What a scan of every watch would find. */
  function Scan(db: Db, item: Item, now: Time): set<RequestId> {
    set id | id in db.requests && db.requests[id].updated <= now && Matches(db.requests[id], item)
  }

  // ---------------------------------------------------------------- triggers

  function TokensOf(m: Matcher): set<string> {
    match m
    case Exact(_) => {}
    case Keywords(tokens) => tokens
  }

  /** DELETE FROM personal_request_keywords WHERE request_id=id */
  function Unindex(keywords: map<(string, RequestId), nat>, ids: set<RequestId>): map<(string, RequestId), nat> {
    map k | k in keywords && k.1 !in ids :: keywords[k]
  }

  function Index(keywords: map<(string, RequestId), nat>, id: RequestId, r: Request): map<(string, RequestId), nat> {
    keywords + map w | w in TokensOf(r.matcher) :: (w, id) := r.revision
  }

  function DropMatches(matches: map<(AlertId, RequestId), nat>, ids: set<RequestId>): map<(AlertId, RequestId), nat> {
    map k | k in matches && k.1 !in ids :: matches[k]
  }

  // ---------------------------------------------------------------- watches

  datatype Saved = Rejected | Accepted(id: RequestId)

  function Owned(db: Db, user: UserId): set<RequestId> {
    set id | id in db.requests && db.requests[id].user == user
  }

  predicate HasMatcher(db: Db, user: UserId, m: Matcher) {
    exists id | id in db.requests :: db.requests[id].user == user && db.requests[id].matcher == m
  }

  function EnsureUser(db: Db, user: UserId): Db {
    db.(users := if user in db.users then db.users else db.users[user := User(NeedsTest, None)])
  }

  /** INSERT with its trigger. */
  function Insert(db: Db, user: UserId, m: Matcher, minimum: Option<nat>, now: Time): Db {
    var r := Request(user, m, 1, now, minimum);
    EnsureUser(db, user).(requests := db.requests[db.nextId := r], nextId := db.nextId + 1,
                          keywords := Index(db.keywords, db.nextId, r))
  }

  /** Queries of the batch that are not saved yet. */
  function Additions(db: Db, user: UserId, queries: seq<Matcher>): nat {
    if queries == [] then 0
    else
      var n := |queries| - 1;
      Additions(db, user, queries[..n]) + if HasMatcher(db, user, queries[n]) then 0 else 1
  }

  /** A query may join the batch: new, or saved already and reusable under the same minimum. */
  predicate MayJoin(db: Db, user: UserId, m: Matcher, reuse: bool, minimum: Option<nat>, specified: bool) {
    forall id | id in db.requests && db.requests[id].user == user && db.requests[id].matcher == m ::
      reuse && (specified ==> db.requests[id].minimum == minimum)
  }

  predicate MayAdd(db: Db, user: UserId, queries: seq<Matcher>, reuse: bool, minimum: Option<nat>, specified: bool) {
    && (forall m | m in queries :: MayJoin(db, user, m, reuse, minimum, specified))
    && |Owned(db, user)| + Additions(db, user, queries) <= MAX_REQUESTS
  }

  /** Save every query that was not saved when the batch began; queries are distinct. */
  function AddAll(db: Db, user: UserId, queries: seq<Matcher>, minimum: Option<nat>, now: Time): Db {
    if queries == [] then EnsureUser(db, user)
    else
      var n := |queries| - 1;
      var before := AddAll(db, user, queries[..n], minimum, now);
      if HasMatcher(db, user, queries[n]) then before else Insert(before, user, queries[n], minimum, now)
  }

  function CancelOrphans(db: Db): Db {
    db.(alerts := map a | a in db.alerts ::
          if db.alerts[a].Unsent() && !HasCurrentMatch(db, a)
          then db.alerts[a].(state := Cancelled) else db.alerts[a])
  }

  predicate HasCurrentMatch(db: Db, a: AlertId) {
    exists id | id in db.requests :: (a, id) in db.matches && db.matches[(a, id)] == db.requests[id].revision
  }

  predicate MayEdit(db: Db, user: UserId, id: RequestId, m: Matcher) {
    && id in db.requests && db.requests[id].user == user
    && !(exists o | o in db.requests :: o != id && db.requests[o].user == user && db.requests[o].matcher == m)
  }

  /** UPDATE with its trigger, then forget the old revision's matches. */
  function Edit(db: Db, user: UserId, id: RequestId, m: Matcher, minimum: Option<nat>, now: Time): Db
    requires id in db.requests
  {
    var r := Request(user, m, db.requests[id].revision + 1, now, minimum);
    CancelOrphans(db.(requests := db.requests[id := r],
                      keywords := Index(Unindex(db.keywords, {id}), id, r),
                      matches := DropMatches(db.matches, {id})))
  }

  function Remove(db: Db, ids: set<RequestId>): Db {
    db.(requests := db.requests - ids, keywords := Unindex(db.keywords, ids),
        matches := DropMatches(db.matches, ids))
  }

  function Delete(db: Db, id: RequestId): Db {
    CancelOrphans(Remove(db, {id}))
  }

  function Revoke(db: Db, user: UserId): Db {
    var bare := Remove(db, Owned(db, user));
    bare.(users := if user in db.users then db.users[user := db.users[user].(status := NeedsTest)] else db.users,
          alerts := map a | a in db.alerts ::
            if a.user == user && db.alerts[a].Unsent() then db.alerts[a].(state := Cancelled) else db.alerts[a])
  }

  function SetDm(db: Db, user: UserId, status: DmStatus, channel: Option<nat>): Db {
    var kept := if channel.None? && user in db.users then db.users[user].channel else channel;
    db.(users := db.users[user := User(status, kept)])
  }

  // ---------------------------------------------------------------- intake

  function ExpireAlerts(alerts: map<AlertId, Alert>, now: Time): map<AlertId, Alert> {
    map a | a in alerts ::
      if alerts[a].Unsent() && alerts[a].expires <= now then alerts[a].(state := Expired) else alerts[a]
  }

  /** The latest observation is kept for send-time validation of unsent alerts. */
  function Refresh(alerts: map<AlertId, Alert>, item: Item, now: Time): map<AlertId, Alert> {
    map a | a in alerts ::
      if a.item == item.id && alerts[a].Unsent() then alerts[a].(payload := item, observed := now) else alerts[a]
  }

  function Withdraw(alerts: map<AlertId, Alert>, item: ItemId): map<AlertId, Alert> {
    map a | a in alerts ::
      if a.item == item && alerts[a].Unsent() then alerts[a].(state := Cancelled) else alerts[a]
  }

  function NewAlert(item: Item, now: Time): Alert {
    Alert(item, now, now, now + ALERT_LIFETIME, Pending, now, 0, None, None, None, None)
  }

  /** Insert, or rearm a definitely unsent alert; anything else stays as it is. */
  function Raise(alerts: map<AlertId, Alert>, a: AlertId, item: Item, now: Time): map<AlertId, Alert> {
    if a !in alerts || alerts[a].Rearmable() then alerts[a := NewAlert(item, now)] else alerts
  }

  function Unlink(matches: map<(AlertId, RequestId), nat>, a: AlertId): map<(AlertId, RequestId), nat> {
    map k | k in matches && k.0 != a :: matches[k]
  }

  /** INSERT OR REPLACE the hitting requests of one member under their current revision. */
  function LinkHits(matches: map<(AlertId, RequestId), nat>, a: AlertId, own: map<RequestId, Request>)
    : map<(AlertId, RequestId), nat>
  {
    matches + map id | id in own :: (a, id) := own[id].revision
  }

  function OwnHits(requests: map<RequestId, Request>, user: UserId, hits: set<RequestId>): map<RequestId, Request> {
    map id | id in hits && id in requests && requests[id].user == user :: requests[id]
  }

  /** Matches of a rearmed alert start afresh; unsent alerts gain the requests that hit. */
  function Link(before: map<AlertId, Alert>, after: map<AlertId, Alert>, matches: map<(AlertId, RequestId), nat>,
                a: AlertId, own: map<RequestId, Request>): map<(AlertId, RequestId), nat>
    requires a in after
  {
    var kept := if a in before && before[a].Rearmable() then Unlink(matches, a) else matches;
    if after[a].Unsent() then LinkHits(kept, a, own) else kept
  }

  /** The member's part of one observation. */
  function Notify(db: Db, user: UserId, item: Item, now: Time, hits: set<RequestId>): Db {
    var a := AlertId(user, item.id);
    var alerts := Raise(db.alerts, a, item, now);
    db.(alerts := alerts, matches := Link(db.alerts, alerts, db.matches, a, OwnHits(db.requests, user, hits)))
  }

  function NotifyAll(db: Db, users: seq<UserId>, item: Item, now: Time, hits: set<RequestId>): Db {
    if users == [] then db
    else
      var n := |users| - 1;
      Notify(NotifyAll(db, users[..n], item, now, hits), users[n], item, now, hits)
  }

  /** Every member with a hit is visited once, in some order. */
  ghost predicate VisitsHits(db: Db, users: seq<UserId>, hits: set<RequestId>) {
    && Distinct(users)
    && (forall id | id in hits :: id in db.requests && db.requests[id].user in users)
    && (forall u | u in users :: exists id :: id in hits && id in db.requests && db.requests[id].user == u)
  }

  function Observed(db: Db, item: Item, now: Time, seedOnly: bool): Db {
    var seen := db.(alerts := Refresh(db.alerts, item, now));
    if seedOnly || !item.available then seen.(alerts := Withdraw(seen.alerts, item.id)) else seen
  }

  function MatchItem(db: Db, item: Item, now: Time, seedOnly: bool, users: seq<UserId>): Db {
    var seen := Observed(db, item, now, seedOnly);
    if seedOnly || !item.available then seen
    else NotifyAll(seen, users, item, now, Hits(seen, item, now))
  }

  // ---------------------------------------------------------------- outbox

  /** Interrupted sends go to review, overdue alerts expire. */
  function RetireAlerts(alerts: map<AlertId, Alert>, now: Time): map<AlertId, Alert> {
    map a | a in alerts ::
      if alerts[a].state.Sending? && alerts[a].leaseUntil.Some? && alerts[a].leaseUntil.value <= now
      then alerts[a].(state := Review)
      else if alerts[a].Unsent() && alerts[a].expires <= now then alerts[a].(state := Expired)
      else alerts[a]
  }

  function Swept(db: Db, now: Time): Db {
    CancelOrphans(db.(alerts := RetireAlerts(db.alerts, now)))
  }

  predicate UserReady(db: Db, user: UserId) {
    user in db.users && db.users[user].status.Ready?
  }

  /** The revalidation before any send: live lease, ready member, current matching watch. */
  predicate Hydrates(db: Db, a: AlertId, now: Time) {
    && a in db.alerts
    && var row := db.alerts[a];
    && row.state.Leased? && row.expires > now && row.leaseUntil.Some? && row.leaseUntil.value > now
    && UserReady(db, a.user)
    && row.payload.available
    && exists id | id in db.requests ::
         && (a, id) in db.matches && db.matches[(a, id)] == db.requests[id].revision
         && db.requests[id].user == a.user && db.requests[id].updated <= row.observed
         && Matches(db.requests[id], row.payload)
  }

  predicate IsDue(db: Db, a: AlertId, now: Time) {
    && a in db.alerts && UserReady(db, a.user)
    && var row := db.alerts[a];
    && row.expires > now && row.nextAttempt <= now
    && (row.state.Pending? || (row.state.Leased? && row.leaseUntil.Some? && row.leaseUntil.value <= now))
  }

  function DueAlerts(db: Db, now: Time): map<AlertId, Rank> {
    map a | a in db.alerts && IsDue(db, a, now) ::
      Rank(0, 0, 0, 0, db.alerts[a].nextAttempt, db.alerts[a].created)
  }

  function LeaseAlert(db: Db, a: AlertId, token: Token, now: Time): Db
    requires a in db.alerts
  {
    db.(alerts := db.alerts[a := db.alerts[a].(state := Leased, token := Some(token),
                                               leaseUntil := Some(now + LEASE))])
  }

  function CancelAlert(db: Db, a: AlertId): Db
    requires a in db.alerts
  {
    db.(alerts := db.alerts[a := db.alerts[a].(state := Cancelled)])
  }

  /** Lease the due rows in turn until one is still valid; the others are cancelled. */
  function TryRows(db: Db, rows: seq<AlertId>, tokens: seq<Token>, now: Time): (r: (Db, nat))
    requires |tokens| >= |rows| && forall a | a in rows :: a in db.alerts
    ensures r.1 <= |rows|
    decreases |rows|
  {
    if rows == [] then (db, 0)
    else
      var leased := LeaseAlert(db, rows[0], tokens[0], now);
      if Hydrates(leased, rows[0], now) then (leased, 0)
      else
        var rest := TryRows(CancelAlert(leased, rows[0]), rows[1..], tokens[1..], now);
        (rest.0, rest.1 + 1)
  }

  predicate Holds(db: Db, a: AlertId, token: Token) {
    a in db.alerts && db.alerts[a].token == Some(token)
  }

  function BeginSend(db: Db, a: AlertId, token: Token, channel: Option<nat>, now: Time): (Db, bool) {
    if Holds(db, a, token) && Hydrates(db, a, now) then
      (db.(alerts := db.alerts[a := db.alerts[a].(state := Sending, attempts := db.alerts[a].attempts + 1,
             channel := if channel.Some? then channel else db.users[a.user].channel)]), true)
    else (db, false)
  }

  predicate MaySettle(db: Db, a: AlertId, token: Token) {
    Holds(db, a, token) && (db.alerts[a].state.Leased? || db.alerts[a].state.Sending?)
  }

  function Settle(db: Db, a: AlertId, token: Token, state: AlertState, messageId: Option<nat>): (Db, bool) {
    if MaySettle(db, a, token)
    then (db.(alerts := db.alerts[a := db.alerts[a].(state := state, messageId := messageId)]), true)
    else (db, false)
  }

  function Retry(db: Db, a: AlertId, token: Token, now: Time, delay: Time): (Db, bool) {
    if MaySettle(db, a, token)
    then (db.(alerts := db.alerts[a := db.alerts[a].(state := Pending, nextAttempt := now + Max(0.05, delay),
                                                     token := None, leaseUntil := None)]), true)
    else (db, false)
  }
}
