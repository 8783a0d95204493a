/** The tables behind channel delivery: observed items, jobs per (item, route), frozen
    dispatch envelopes, learned route limits, cooldown gates and round-robin turns.

    One SQL statement is one function here. Hashed keys are injective constructors. */
module ChannelTables {
  import opened Basics

  type ItemId = string
  type Token = nat

  const FREE_DELAY: Time := 86400.0
  const FREE_LIFETIME: Time := 7.0 * 86400.0
  const JOB_LIFETIME: Time := 1800.0
  const LEASE: Time := 60.0
  const MAX_MESSAGE_BYTES := 10240
  const MAX_BATCH := 500

  datatype Route = ProAll | TypeFeed(category: string) | PriceFeed(band: nat) | Free

  datatype Item = Item(id: ItemId, available: bool, category: string, valueCents: Option<nat>)

  /** Exclusive cent ceilings of the price feeds; 5 is the open top band. */
  function PriceBand(cents: nat): nat {
    if cents < 1000 then 0
    else if cents < 2000 then 1
    else if cents < 4000 then 2
    else if cents < 8000 then 3
    else if cents < 20000 then 4
    else 5
  }

  function RouteKeys(item: Item): seq<Route> {
    if !item.available then [Free]
    else
      [ProAll, TypeFeed(item.category)]
      + (if item.valueCents.Some? && item.valueCents.value > 0
         then [PriceFeed(PriceBand(item.valueCents.value))] else [])
      + [Free]
  }

  /** items row: latest payload and when the item was first and last observed. */
  datatype Observed = Observed(payload: Item, firstSeen: Time, lastSeen: Time)

  datatype JobId = JobId(item: ItemId, route: Route)

  datatype JobState = Pending | Leased | Sent | Failed | Skipped | Expired

  datatype Reason =
    | NoReason | Stale | Seeded | NoLongerMatches | Invalidated | TooLarge | TooLargeReview
    | Other(text: string)

  datatype Job = Job(
    state: JobState, due: Time, expires: Time, attempts: nat, nextAttempt: Time,
    token: Option<Token>, leaseUntil: Option<Time>, batch: Option<DispatchId>,
    reason: Reason, snapshot: Option<Item>, messageId: Option<string>, sentAt: Option<Time>)
  {
    predicate Live() {
      state.Pending? || state.Leased?
    }
  }

  /** A single card is dispatched under its job's own id, a bundle under the digest of its
      ordered members. */
  datatype DispatchId = Single(job: JobId) | Bundle(jobs: seq<JobId>)

  function DispatchIdFor(rows: seq<JobId>): DispatchId
    requires rows != []
  {
    if |rows| == 1 then Single(rows[0]) else Bundle(rows)
  }

  datatype Card = Card(item: Item, route: Route, firstSeen: Time, lastSeen: Time)

  /** What is POSTed: one card per member, and the envelope id as enforced nonce. */
  datatype Body = Body(cards: seq<Card>, nonce: DispatchId)

  datatype DispatchState = DPending | DLeased | DSent | DFailed | DSkipped | DRejected

  datatype Dispatch = Dispatch(
    route: Route, members: seq<JobId>, body: Body, state: DispatchState, uncertain: bool)

  datatype Gate = GlobalGate | RouteGate(route: Route)

  datatype Db = Db(
    items: map<ItemId, Observed>, seeded: set<ItemId>, jobs: map<JobId, Job>,
    dispatches: map<DispatchId, Dispatch>, limits: map<Route, nat>,
    gates: map<Gate, Time>, turns: map<Route, nat>)

  const EMPTY := Db(map[], {}, map[], map[], map[], map[], map[])

  /** A claimed envelope as a worker holds it in memory; attempts is the maximum over its jobs. */
  datatype Batch = Batch(
    id: DispatchId, route: Route, jobs: seq<JobId>, body: Body, token: Token, attempts: nat)

  // ---------------------------------------------------------------- statements

  /** UPDATE jobs SET state='expired' WHERE live AND expires<=now */
  function ExpireJobs(jobs: map<JobId, Job>, now: Time): map<JobId, Job> {
    map k | k in jobs ::
      if jobs[k].Live() && jobs[k].expires <= now
      then jobs[k].(state := Expired, reason := Stale) else jobs[k]
  }

  /** Seeding retires every live job of the item. */
  function SeedJobs(jobs: map<JobId, Job>, item: ItemId): map<JobId, Job> {
    map k | k in jobs ::
      if k.item == item && jobs[k].Live()
      then jobs[k].(state := Skipped, reason := Seeded) else jobs[k]
  }

  /** Live jobs of an envelope are skipped; with a token, only rows still holding it. */
  function CancelJobs(jobs: map<JobId, Job>, d: DispatchId, token: Option<Token>): map<JobId, Job> {
    map k | k in jobs ::
      if jobs[k].batch == Some(d) && jobs[k].Live() && (token.Some? ==> jobs[k].token == token)
      then jobs[k].(state := Skipped, reason := Invalidated, token := None, leaseUntil := None)
      else jobs[k]
  }

  /** Observations that left their route are skipped one by one and may be rearmed later. */
  function SkipJobs(jobs: map<JobId, Job>, gone: set<JobId>): map<JobId, Job> {
    map k | k in jobs ::
      if k in gone then jobs[k].(state := Skipped, reason := NoLongerMatches) else jobs[k]
  }

  function LeaseJobs(jobs: map<JobId, Job>, rows: set<JobId>, d: DispatchId, token: Token, until: Time)
    : map<JobId, Job>
  {
    map k | k in jobs ::
      if k in rows
      then jobs[k].(batch := Some(d), state := Leased, token := Some(token),
                    leaseUntil := Some(until), attempts := jobs[k].attempts + 1)
      else jobs[k]
  }

  predicate Holds(j: Job, d: DispatchId, token: Token) {
    j.batch == Some(d) && j.token == Some(token)
  }

  function FinishJobs(jobs: map<JobId, Job>, d: DispatchId, token: Token, state: JobState,
                      messageId: Option<string>, reason: Reason, now: Time): map<JobId, Job>
  {
    map k | k in jobs ::
      if Holds(jobs[k], d, token)
      then jobs[k].(state := state, messageId := messageId, reason := reason,
                    sentAt := if state.Sent? then Some(now) else None,
                    token := None, leaseUntil := None)
      else jobs[k]
  }

  function RetryJobs(jobs: map<JobId, Job>, d: DispatchId, token: Token, at: Time, reason: Reason,
                     countAttempt: bool): map<JobId, Job>
  {
    map k | k in jobs ::
      if Holds(jobs[k], d, token)
      then jobs[k].(state := Pending, nextAttempt := at, reason := reason,
                    attempts := if countAttempt || jobs[k].attempts == 0
                                then jobs[k].attempts else jobs[k].attempts - 1,
                    token := None, leaseUntil := None)
      else jobs[k]
  }

  /** A rejected envelope that may have been accepted before waits for review until it expires. */
  function HoldJobs(jobs: map<JobId, Job>, d: DispatchId, token: Token): map<JobId, Job> {
    map k | k in jobs ::
      if Holds(jobs[k], d, token)
      then jobs[k].(state := Pending, nextAttempt := jobs[k].expires, reason := TooLargeReview,
                    token := None, leaseUntil := None)
      else jobs[k]
  }

  function FailJobs(jobs: map<JobId, Job>, d: DispatchId): map<JobId, Job> {
    map k | k in jobs ::
      if jobs[k].batch == Some(d)
      then jobs[k].(state := Failed, reason := TooLarge, token := None, leaseUntil := None)
      else jobs[k]
  }

  /** Members of a split envelope become fresh, unattempted work again. */
  function ReleaseJobs(jobs: map<JobId, Job>, d: DispatchId, token: Token, now: Time): map<JobId, Job> {
    map k | k in jobs ::
      if Holds(jobs[k], d, token)
      then jobs[k].(batch := None, state := Pending, attempts := 0, nextAttempt := now,
                    reason := TooLarge, token := None, leaseUntil := None)
      else jobs[k]
  }

  /** UPDATE dispatches SET state=... WHERE id=d; nothing happens for an unknown id. */
  function Mark(ds: map<DispatchId, Dispatch>, d: DispatchId, state: DispatchState)
    : map<DispatchId, Dispatch>
  {
    if d in ds then ds[d := ds[d].(state := state)] else ds
  }

  function Doubt(ds: map<DispatchId, Dispatch>, d: DispatchId, doubt: bool): map<DispatchId, Dispatch> {
    if d in ds then ds[d := ds[d].(uncertain := ds[d].uncertain || doubt)] else ds
  }

  function GateUntil(gates: map<Gate, Time>, gate: Gate): Time {
    if gate in gates then gates[gate] else 0.0
  }

  function LastClaim(turns: map<Route, nat>, route: Route): nat {
    if route in turns then turns[route] else 0
  }

  function LeaseOver(j: Job, now: Time): bool {
    j.leaseUntil.Some? && j.leaseUntil.value <= now
  }

  function LeaseLive(j: Job, now: Time): bool {
    j.state.Leased? && j.leaseUntil.Some? && j.leaseUntil.value > now
  }

  // ---------------------------------------------------------------- derived reads

  /** The observation a job is rendered from: the captured snapshot for historical jobs. */
  function Shown(db: Db, k: JobId): Item
    requires k in db.jobs && k.item in db.items
  {
    if db.jobs[k].snapshot.Some? then db.jobs[k].snapshot.value else db.items[k.item].payload
  }

  function CardOf(db: Db, k: JobId): Card
    requires k in db.jobs && k.item in db.items
  {
    if k.route.Free? then
      Card(Shown(db, k), k.route, db.jobs[k].due - FREE_DELAY, db.jobs[k].due - FREE_DELAY)
    else
      Card(Shown(db, k), k.route, db.items[k.item].firstSeen, db.items[k.item].lastSeen)
  }

  predicate Known(db: Db, rows: seq<JobId>) {
    forall k | k in rows :: k in db.jobs && k.item in db.items
  }

  function Cards(db: Db, rows: seq<JobId>): (cards: seq<Card>)
    requires Known(db, rows)
    ensures |cards| == |rows|
  {
    seq(|rows|, i requires 0 <= i < |rows| => CardOf(db, rows[i]))
  }

  /** The job still belongs on its route, is unexpired and its item was never seeded. */
  predicate StillWanted(db: Db, k: JobId, now: Time)
    requires k in db.jobs && k.item in db.items
  {
    && db.jobs[k].expires > now
    && k.route in RouteKeys(Shown(db, k))
    && k.item !in db.seeded
  }

  ghost function RowsOf(jobs: map<JobId, Job>, d: DispatchId): set<JobId> {
    set k | k in jobs && jobs[k].batch == Some(d)
  }
}
