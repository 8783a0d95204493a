/** The welcome ledger: a cursor over a growing event log, an outbox and rejoin cooldowns. */
module WelcomeTables {
  import opened Basics
  import opened Ranking
  import opened Provider

  type MessageId = nat
  type UserId = nat

  const PAGE := 100
  const MAX_PENDING := 1000
  const BATCH := 5
  const REJOIN: Time := 86400.0
  const RETENTION: Time := 604800.0

  /** joiner: the human member of a join event; None for every other message. */
  datatype Message = Message(id: MessageId, joiner: Option<UserId>)

  datatype State = Pending | Sending | Sent | Failed | Review | Skipped

  datatype Welcome = Welcome(
    user: UserId, state: State, created: Time, attempted: Option<Time>, nextAttempt: Time, message: Option<MessageId>)
  {
    predicate Live() {
      state.Pending? || state.Sending?
    }
  }

  /** A backward scan: everything from before up to head has been read. */
  datatype Scan = Scan(head: MessageId, before: MessageId)

  datatype Db = Db(
    cursor: MessageId, scan: Option<Scan>, welcomes: map<MessageId, Welcome>, cooldowns: map<UserId, Time>)

  // ---------------------------------------------------------------- pages

  ghost predicate Ascending(s: seq<Message>) {
    forall i, j | 0 <= i < j < |s| :: s[i].id < s[j].id
  }

  predicate Below(scan: Option<Scan>, id: MessageId) {
    scan.Some? ==> id < scan.value.before
  }

  /** The newest hundred messages below the scan position, in id order. */
  ghost predicate PageOf(log: seq<Message>, scan: Option<Scan>, page: seq<Message>) {
    && Ascending(page) && |page| <= PAGE
    && (forall m | m in page :: m in log && Below(scan, m.id))
    && (forall m | m in log && Below(scan, m.id) && m !in page :: |page| == PAGE && m.id < page[0].id)
  }

  // ---------------------------------------------------------------- intake

  function LiveWelcomes(welcomes: map<MessageId, Welcome>): set<MessageId> {
    set id | id in welcomes && welcomes[id].Live()
  }

  function Incoming(cursor: MessageId, page: seq<Message>): nat {
    if page == [] then 0
    else Incoming(cursor, page[..|page| - 1]) + if page[|page| - 1].id > cursor then 1 else 0
  }

  predicate Cooling(cooldowns: map<UserId, Time>, user: UserId, now: Time) {
    user in cooldowns && cooldowns[user] > now
  }

  predicate Greets(db: Db, m: Message, now: Time) {
    m.id > db.cursor && m.joiner.Some? && !Cooling(db.cooldowns, m.joiner.value, now) && m.id !in db.welcomes
  }

  function AddJoin(db: Db, m: Message, now: Time): Db {
    if Greets(db, m, now) then
      db.(welcomes := db.welcomes[m.id := Welcome(m.joiner.value, Pending, now, None, now, None)],
          cooldowns := db.cooldowns[m.joiner.value := now + REJOIN])
    else db
  }

  function AddJoins(db: Db, page: seq<Message>, now: Time): Db {
    if page == [] then db
    else AddJoin(AddJoins(db, page[..|page| - 1], now), page[|page| - 1], now)
  }

  /** The page reaches the floor: it is not full, or it holds a message at or below the cursor. */
  predicate Reaches(cursor: MessageId, page: seq<Message>) {
    |page| < PAGE || exists m | m in page :: m.id <= cursor
  }

  function Head(db: Db, page: seq<Message>): MessageId {
    var floor := if db.scan.Some? && db.scan.value.head > db.cursor then db.scan.value.head else db.cursor;
    if page != [] && page[|page| - 1].id > floor then page[|page| - 1].id else floor
  }

  function Advance(db: Db, page: seq<Message>): Db {
    if Reaches(db.cursor, page) then db.(cursor := Head(db, page), scan := None)
    else db.(scan := Some(Scan(Head(db, page), page[0].id)))
  }

  predicate Fits(db: Db, page: seq<Message>) {
    |LiveWelcomes(db.welcomes)| + Incoming(db.cursor, page) <= MAX_PENDING
  }

  /** A page that does not fit leaves everything as it was. */
  function Ingest(db: Db, page: seq<Message>, now: Time): (Db, bool) {
    if Fits(db, page) then (Advance(AddJoins(db, page, now), page), true) else (db, false)
  }

  // ---------------------------------------------------------------- outbox

  function Housekeep(db: Db, now: Time): Db {
    var skipped := map id | id in db.welcomes ::
      if db.welcomes[id].state.Pending? && db.welcomes[id].created < now - REJOIN
      then db.welcomes[id].(state := Skipped) else db.welcomes[id];
    db.(welcomes := map id | id in skipped && !(!skipped[id].Live()
            && skipped[id].created < now - RETENTION) :: skipped[id],
        cooldowns := map u | u in db.cooldowns && db.cooldowns[u] > now :: db.cooldowns[u])
  }

  function Due(db: Db, now: Time): map<MessageId, Rank> {
    map id | id in db.welcomes && db.welcomes[id].Live() && db.welcomes[id].nextAttempt <= now ::
      Rank(0, 0, 0, 0, db.welcomes[id].created, 0.0)
  }

  function SettleRow(db: Db, id: MessageId, state: State, message: Option<MessageId>): Db {
    if id in db.welcomes then db.(welcomes := db.welcomes[id := db.welcomes[id].(state := state, message := message)])
    else db
  }

  predicate MayClaim(db: Db, id: MessageId) {
    id in db.welcomes && db.welcomes[id].state.Pending?
  }

  function ClaimRow(db: Db, id: MessageId, now: Time): Db
    requires MayClaim(db, id)
  {
    db.(welcomes := db.welcomes[id := db.welcomes[id].(state := Sending, attempted := Some(now))])
  }

  function DeferRow(db: Db, id: MessageId, until: Time): Db {
    if id in db.welcomes then db.(welcomes := db.welcomes[id := db.welcomes[id].(state := Pending,
            nextAttempt := until)])
    else db
  }

  datatype Verdict = Deliver | Defer | Reject | Hold

  /** What the worker concludes from its POST. */
  function VerdictFor(reply: Reply): Verdict {
    if reply == Created(true) then Deliver
    else
      match StatusOf(reply)
      case Some(429) => Defer
      case Some(code) => if code in {400, 401, 403, 404} then Reject else Hold
      case None => Hold
  }

  function Concluded(db: Db, id: MessageId, reply: Reply, message: MessageId, delay: Time, now: Time): Db {
    match VerdictFor(reply)
    case Deliver => SettleRow(db, id, Sent, Some(message))
    case Defer => DeferRow(db, id, now + Max(1.0, delay))
    case Reject => SettleRow(db, id, Failed, None)
    case Hold => db
  }
}
