/** The transactions of the channel job store, as functions of the tables they read.
    Claiming chooses among rows, so it is described by passes: which row came first, which
    rows filled the envelope, and what the pass did with them. */
module ChannelOps {
  import opened Basics
  import opened ChannelTables
  import opened Ranking

  // ---------------------------------------------------------------- intake

  function NewJob(item: Item, route: Route, firstSeen: Time, now: Time): Job {
    var due := if route.Free? then now + FREE_DELAY else firstSeen;
    var expires := if route.Free? then due + FREE_LIFETIME else firstSeen + JOB_LIFETIME;
    Job(Pending, due, expires, 0, due, None, None, None, NoReason,
        if route.Free? then Some(item) else None, None, None)
  }

  predicate Rearmable(j: Job, now: Time) {
    j.state.Skipped? && j.expires > now && j.batch.None? && j.reason.NoLongerMatches?
  }

  /** INSERT ... DO NOTHING, then the guarded UPDATE that rearms a skipped job. */
  function AddJob(jobs: map<JobId, Job>, item: Item, route: Route, firstSeen: Time, now: Time)
    : map<JobId, Job>
  {
    var k := JobId(item.id, route);
    if k !in jobs then jobs[k := NewJob(item, route, firstSeen, now)]
    else if Rearmable(jobs[k], now)
    then jobs[k := jobs[k].(state := Pending, nextAttempt := jobs[k].due, reason := NoReason)]
    else jobs
  }

  function AddJobs(jobs: map<JobId, Job>, item: Item, routes: seq<Route>, firstSeen: Time, now: Time)
    : map<JobId, Job>
  {
    if routes == [] then jobs
    else
      var n := |routes| - 1;
      AddJob(AddJobs(jobs, item, routes[..n], firstSeen, now), item, routes[n], firstSeen, now)
  }

  function Observe(db: Db, item: Item, now: Time): Db {
    db.(items := db.items[item.id :=
          Observed(item, if item.id in db.items then db.items[item.id].firstSeen else now, now)])
  }

  function Seed(db: Db, item: ItemId): Db {
    db.(seeded := db.seeded + {item}, jobs := SeedJobs(db.jobs, item))
  }

  function RecordItem(db: Db, item: Item, now: Time, seedOnly: bool): Db {
    var seen := Observe(db, item, now);
    var marked := if seedOnly then Seed(seen, item.id) else seen;
    if item.id in marked.seeded then marked
    else marked.(jobs := AddJobs(marked.jobs, item, RouteKeys(item),
                                 marked.items[item.id].firstSeen, now))
  }

  function RecordAll(db: Db, items: seq<Item>, now: Time, seedOnly: bool): Db {
    if items == [] then db
    else
      var n := |items| - 1;
      RecordItem(RecordAll(db, items[..n], now, seedOnly), items[n], now, seedOnly)
  }

  // ---------------------------------------------------------------- settlement

  predicate ForeignKeys(db: Db) {
    forall k | k in db.jobs :: k.item in db.items
  }

  function Rows(db: Db, d: DispatchId): (rows: set<JobId>)
    ensures rows == RowsOf(db.jobs, d)
  {
    set k | k in db.jobs && db.jobs[k].batch == Some(d)
  }

  function Cancel(db: Db, d: DispatchId, token: Option<Token>): Db {
    db.(jobs := CancelJobs(db.jobs, d, token), dispatches := Mark(db.dispatches, d, DSkipped))
  }

  /** Another claim of this envelope holds a lease. */
  predicate Superseded(db: Db, b: Batch) {
    exists k | k in db.jobs ::
      db.jobs[k].batch == Some(b.id) && db.jobs[k].state.Leased? && db.jobs[k].token != Some(b.token)
  }

  predicate Owned(db: Db, b: Batch) {
    && !Superseded(db, b)
    && |Rows(db, b.id)| == |b.jobs|
    && forall k | k in db.jobs && db.jobs[k].batch == Some(b.id) ::
         db.jobs[k].state.Leased? && db.jobs[k].token == Some(b.token)
  }

  /** What the ownership check leaves behind when it fails. */
  function Disown(db: Db, b: Batch): Db {
    if Superseded(db, b) then db else Cancel(db, b.id, Some(b.token))
  }

  predicate AllWanted(db: Db, d: DispatchId, now: Time)
    requires ForeignKeys(db)
  {
    forall k | k in db.jobs && db.jobs[k].batch == Some(d) :: StillWanted(db, k, now)
  }

  function ValidateDispatch(db: Db, b: Batch, now: Time): (Db, bool)
    requires ForeignKeys(db)
  {
    if !Owned(db, b) then (Disown(db, b), false)
    else if AllWanted(db, b.id, now) then (db, true)
    else (Cancel(db, b.id, Some(b.token)), false)
  }

  function TerminalMark(state: JobState): DispatchState {
    match state
    case Sent => DSent
    case Failed => DFailed
    case _ => DSkipped
  }

  function FinishBatch(db: Db, b: Batch, state: JobState, messageId: Option<string>, reason: Reason,
                       now: Time): (Db, bool)
  {
    if !Owned(db, b) then (Disown(db, b), false)
    else
      (db.(jobs := FinishJobs(db.jobs, b.id, b.token, state, messageId, reason, now),
           dispatches := Mark(db.dispatches, b.id, TerminalMark(state))), true)
  }

  function RetryBatch(db: Db, b: Batch, now: Time, delay: Time, reason: Reason, countAttempt: bool,
                      ambiguous: bool): (Db, bool)
  {
    if !Owned(db, b) then (Disown(db, b), false)
    else
      (db.(jobs := RetryJobs(db.jobs, b.id, b.token, now + Max(0.01, delay), reason, countAttempt),
           dispatches := Doubt(Mark(db.dispatches, b.id, DPending), b.id, ambiguous)), true)
  }

  datatype SplitOutcome = StaleSplit | HeldSplit | FailedSplit | SplitDone

  function LearnLimit(limits: map<Route, nat>, route: Route, n: nat): map<Route, nat> {
    var most := Min(5, n / 2);
    limits[route := if route in limits then Min(limits[route], most) else most]
  }

  predicate Doubtful(db: Db, d: DispatchId) {
    d !in db.dispatches || db.dispatches[d].uncertain
  }

  function SplitRejected(db: Db, b: Batch, now: Time): (Db, SplitOutcome)
    requires ForeignKeys(db)
  {
    if !Owned(db, b) then (Disown(db, b), StaleSplit)
    else if !AllWanted(db, b.id, now) then (Cancel(db, b.id, Some(b.token)), StaleSplit)
    else if Doubtful(db, b.id) then
      (db.(jobs := HoldJobs(db.jobs, b.id, b.token),
           dispatches := Mark(db.dispatches, b.id, DPending)), HeldSplit)
    else if |Rows(db, b.id)| == 1 then
      (db.(jobs := FailJobs(db.jobs, b.id), dispatches := Mark(db.dispatches, b.id, DFailed)),
       FailedSplit)
    else
      (db.(limits := LearnLimit(db.limits, b.route, |Rows(db, b.id)|),
           dispatches := Mark(db.dispatches, b.id, DRejected),
           jobs := ReleaseJobs(db.jobs, b.id, b.token, now)), SplitDone)
  }

  function Defer(db: Db, gate: Gate, until: Time): Db {
    db.(gates := db.gates[gate := if gate in db.gates then Max(db.gates[gate], until) else until])
  }

  function Expire(db: Db, now: Time): Db {
    db.(jobs := ExpireJobs(db.jobs, now))
  }

  // ---------------------------------------------------------------- claiming

  datatype Audience = Anyone | Paid | FreeOnly

  datatype Query = Query(exclude: set<Route>, audience: Audience, size: nat, fair: bool, singlesOnly: bool)

  predicate RouteBusy(db: Db, route: Route, now: Time) {
    exists k | k in db.jobs :: k.route == route && LeaseLive(db.jobs[k], now)
  }

  /** A pending member of the same envelope still waits for its retry time. */
  predicate SiblingWaits(db: Db, j: Job, now: Time) {
    j.batch.Some? && exists o | o in db.jobs ::
      db.jobs[o].batch == j.batch && db.jobs[o].state.Pending? && db.jobs[o].nextAttempt > now
  }

  predicate Serves(audience: Audience, route: Route) {
    match audience
    case Anyone => true
    case Paid => !route.Free?
    case FreeOnly => route.Free?
  }

  /** Paid work is due or in flight. */
  predicate DuePaid(db: Db, now: Time) {
    exists k | k in db.jobs ::
      db.jobs[k].Live() && db.jobs[k].expires > now && db.jobs[k].due <= now && !k.route.Free?
  }

  predicate Ready(db: Db, k: JobId, now: Time) {
    && k in db.jobs
    && (db.jobs[k].state.Pending? || (db.jobs[k].state.Leased? && LeaseOver(db.jobs[k], now)))
    && db.jobs[k].due <= now
    && db.jobs[k].nextAttempt <= now
    && GateUntil(db.gates, RouteGate(k.route)) <= now
    && !RouteBusy(db, k.route, now)
    && !SiblingWaits(db, db.jobs[k], now)
  }

  predicate Candidate(db: Db, k: JobId, now: Time, q: Query) {
    && Ready(db, k, now)
    && (q.singlesOnly && db.jobs[k].batch.Some? && db.jobs[k].batch.value in db.dispatches
        ==> |db.dispatches[db.jobs[k].batch.value].members| <= 1)
    && k.route !in q.exclude
    && Serves(q.audience, k.route)
  }

  function Value(db: Db, k: JobId): int {
    if k.item in db.items && db.items[k.item].payload.valueCents.Some?
    then db.items[k.item].payload.valueCents.value else -1
  }

  function ClaimRank(db: Db, q: Query, now: Time, k: JobId): Rank
    requires k in db.jobs
  {
    var last := if k.route.Free? then 1 else 0;
    if q.fair then Rank(last, LastClaim(db.turns, k.route), 0, 0, db.jobs[k].due, 0.0)
    else Rank(last, if k.route.Free? then 1 else -Value(db, k),
              if db.jobs[k].due >= now - 60.0 then 0 else 1,
              if k.route.ProAll? then 0 else 1, db.jobs[k].due, 0.0)
  }

  function Candidates(db: Db, now: Time, q: Query): (ranks: map<JobId, Rank>)
    ensures forall k :: k in ranks <==> k in db.jobs && Candidate(db, k, now, q)
    ensures forall k | k in ranks :: ranks[k] == ClaimRank(db, q, now, k)
  {
    map k | k in db.jobs && Candidate(db, k, now, q) :: ClaimRank(db, q, now, k)
  }

  predicate Eligible(db: Db, first: JobId, now: Time, k: JobId)
    requires first in db.jobs
  {
    && k in db.jobs && k.route == first.route && k != first
    && db.jobs[k].batch.None? && db.jobs[k].attempts == 0 && db.jobs[k].state.Pending?
    && db.jobs[k].due <= now && db.jobs[k].nextAttempt <= now && db.jobs[k].expires > now
    && ((db.jobs[k].expires <= now + 60.0) <==> (db.jobs[first].expires <= now + 60.0))
  }

  function FillRank(db: Db, byValue: bool, k: JobId): Rank
    requires k in db.jobs
  {
    Rank(0, if byValue then -Value(db, k) else 0, 0, 0, db.jobs[k].due, 0.0)
  }

  function Pool(db: Db, first: JobId, now: Time, byValue: bool): (ranks: map<JobId, Rank>)
    requires first in db.jobs
    ensures forall k :: k in ranks <==> k in db.jobs && Eligible(db, first, now, k)
    ensures forall k | k in ranks :: ranks[k] == FillRank(db, byValue, k)
  {
    map k | k in db.jobs && Eligible(db, first, now, k) :: FillRank(db, byValue, k)
  }

  function BatchSize(db: Db, q: Query, route: Route): nat {
    var most := if route.Free? then Min(q.size, 5) else q.size;
    if route in db.limits then Min(most, db.limits[route]) else most
  }

  predicate ValueFirst(q: Query, route: Route) {
    !q.fair && !route.Free?
  }

  /** The final card of a full priority fill is reserved for the oldest eligible job. */
  predicate Reserves(q: Query, route: Route, size: nat, filled: nat) {
    ValueFirst(q, route) && size > 1 && filled == size
  }

  function WithOldest(first: JobId, picks: seq<JobId>, oldest: Option<JobId>): seq<JobId> {
    var rows := [first] + picks;
    if oldest.Some? && oldest.value !in rows then rows[..|rows| - 1] + [oldest.value] else rows
  }

  /** Drop the card before the last one of a priority fill, the last one otherwise. */
  function PopCard(rows: seq<JobId>, fair: bool): seq<JobId>
    requires |rows| > 1
  {
    var n := |rows|;
    if !fair && n > 2 then rows[..n - 2] + [rows[n - 1]] else rows[..n - 1]
  }

  type Wire = seq<Card> -> nat

  /** The shrink loop: cards leave until the rendered envelope fits the wire ceiling. */
  function Shrink(db: Db, wire: Wire, fair: bool, rows: seq<JobId>): (kept: seq<JobId>)
    requires Known(db, rows)
    ensures Known(db, kept)
    ensures rows != [] ==> kept != [] && kept[0] == rows[0]
    decreases |rows|
  {
    if |rows| <= 1 || wire(Cards(db, rows)) <= MAX_MESSAGE_BYTES then rows
    else Shrink(db, wire, fair, PopCard(rows, fair))
  }

  /** One pass of the claim loop: the first row, the fill picked around it, the rows kept. */
  datatype Pass = Pass(first: JobId, picks: seq<JobId>, oldest: Option<JobId>, rows: seq<JobId>)

  ghost predicate SavedRows(db: Db, p: Pass)
    requires p.first in db.jobs
  {
    var d := db.jobs[p.first].batch;
    d.Some? && d.value in db.dispatches && p.rows == db.dispatches[d.value].members
  }

  ghost predicate FillPicked(db: Db, now: Time, q: Query, p: Pass)
    requires p.first in db.jobs
  {
    var size := BatchSize(db, q, p.first.route);
    var byValue := ValueFirst(q, p.first.route);
    if db.jobs[p.first].attempts > 0 || size == 0 then p.picks == [] && p.oldest.None?
    else
      && TopOf(Pool(db, p.first, now, byValue), size - 1, p.picks)
      && (if Reserves(q, p.first.route, size, |p.picks| + 1)
          then p.oldest.Some? && Lowest(Pool(db, p.first, now, false), p.oldest.value)
          else p.oldest.None?)
  }

  ghost predicate FreshRows(db: Db, now: Time, q: Query, wire: Wire, p: Pass)
    requires p.first in db.jobs
  {
    && db.jobs[p.first].batch.None?
    && FillPicked(db, now, q, p)
    && var fill := WithOldest(p.first, p.picks, p.oldest);
       Known(db, fill) && p.rows == Shrink(db, wire, q.fair, fill)
  }

  ghost predicate Picked(db: Db, now: Time, q: Query, wire: Wire, p: Pass) {
    && Lowest(Candidates(db, now, q), p.first)
    && (if db.jobs[p.first].batch.Some? then SavedRows(db, p) else FreshRows(db, now, q, wire, p))
  }

  predicate Deliverable(db: Db, rows: seq<JobId>, now: Time) {
    forall k | k in rows ::
      k in db.jobs && k.item in db.items && db.jobs[k].Live() && StillWanted(db, k, now)
  }

  /** Rows whose observation has left their route. */
  function Gone(db: Db, rows: seq<JobId>): set<JobId> {
    set k | k in rows && k in db.jobs && k.item in db.items && k.route !in RouteKeys(Shown(db, k))
  }

  /** An unsuccessful pass: the envelope is cancelled, or stray observations are skipped. */
  function Retire(db: Db, p: Pass): Db
    requires p.first in db.jobs
  {
    if db.jobs[p.first].batch.Some? then Cancel(db, db.jobs[p.first].batch.value, None)
    else db.(jobs := SkipJobs(db.jobs, Gone(db, p.rows)))
  }

  ghost predicate IsMaxTurn(turns: map<Route, nat>, m: nat) {
    && (forall r | r in turns :: turns[r] <= m)
    && (m == 0 || m in turns.Values)
  }

  lemma MaxTurnExists(turns: map<Route, nat>)
    ensures exists m: nat :: IsMaxTurn(turns, m)
    decreases |turns|
  {
    if turns == map[] {
      assert IsMaxTurn(turns, 0);
    } else {
      var r :| r in turns;
      var rest := turns - {r};
      MaxTurnExists(rest);
      var m: nat :| IsMaxTurn(rest, m);
      var best := if m < turns[r] then turns[r] else m;
      assert forall v | v in rest.Values :: v in turns.Values;
      assert forall x | x in turns :: x == r || (x in rest && rest[x] == turns[x]);
      assert IsMaxTurn(turns, best);
    }
  }

  /** SELECT COALESCE(MAX(last_claim),0)+1 FROM route_turns */
  ghost function NextTurn(turns: map<Route, nat>): (n: nat)
    ensures n > 0 && IsMaxTurn(turns, n - 1)
  {
    MaxTurnExists(turns);
    var m: nat :| IsMaxTurn(turns, m);
    m + 1
  }

  function EnvelopeId(db: Db, p: Pass): DispatchId
    requires p.first in db.jobs && p.rows != []
  {
    if db.jobs[p.first].batch.Some? then db.jobs[p.first].batch.value else DispatchIdFor(p.rows)
  }

  function AnyLeased(db: Db, rows: seq<JobId>): bool {
    exists k | k in rows :: k in db.jobs && db.jobs[k].state.Leased?
  }

  /** The frozen record: the saved one, doubted when a lease is taken over, or a new one. */
  function Envelope(db: Db, p: Pass): Dispatch
    requires p.first in db.jobs && p.rows != [] && Known(db, p.rows)
  {
    var d := EnvelopeId(db, p);
    if db.jobs[p.first].batch.Some? && d in db.dispatches then
      db.dispatches[d].(state := DLeased,
        uncertain := db.dispatches[d].uncertain || AnyLeased(db, p.rows))
    else Dispatch(p.first.route, p.rows, Body(Cards(db, p.rows), d), DLeased,
                  db.jobs[p.first].batch.Some?)
  }

  ghost function Lease(db: Db, p: Pass, token: Token, now: Time): Db
    requires p.first in db.jobs && p.rows != [] && Known(db, p.rows)
  {
    var d := EnvelopeId(db, p);
    db.(dispatches := db.dispatches[d := Envelope(db, p)],
        jobs := LeaseJobs(db.jobs, (set k | k in p.rows), d, token, now + LEASE),
        turns := db.turns[p.first.route := NextTurn(db.turns)])
  }

  function MostAttempts(db: Db, rows: seq<JobId>): nat {
    if rows == [] then 0
    else
      var n := |rows| - 1;
      var rest := MostAttempts(db, rows[..n]);
      if rows[n] in db.jobs && db.jobs[rows[n]].attempts + 1 > rest
      then db.jobs[rows[n]].attempts + 1 else rest
  }

  function BatchOf(db: Db, p: Pass, token: Token): Batch
    requires p.first in db.jobs && p.rows != [] && Known(db, p.rows)
  {
    Batch(EnvelopeId(db, p), p.first.route, p.rows, Envelope(db, p).body, token,
          MostAttempts(db, p.rows))
  }

  function RetireAll(db: Db, passes: seq<Pass>): Db {
    if passes == [] then db
    else
      var n := |passes| - 1;
      var before := RetireAll(db, passes[..n]);
      if passes[n].first in before.jobs then Retire(before, passes[n]) else before
  }

  /** Every pass picked its row from what the earlier ones left, and found it undeliverable. */
  ghost predicate AllRefused(db: Db, now: Time, q: Query, wire: Wire, passes: seq<Pass>) {
    if passes == [] then true
    else
      var n := |passes| - 1;
      var before := RetireAll(db, passes[..n]);
      && AllRefused(db, now, q, wire, passes[..n])
      && Picked(before, now, q, wire, passes[n])
      && !Deliverable(before, passes[n].rows, now)
  }

  ghost predicate Chosen(db: Db, now: Time, q: Query, wire: Wire, p: Pass) {
    Picked(db, now, q, wire, p) && p.rows != [] && Deliverable(db, p.rows, now)
  }
}
