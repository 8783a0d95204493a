/** What a settlement leaves on the rows, told field by field: when the members of an envelope may be
    tried again, how often they were, and that no other row is touched. */
module ChannelEffects {
  import opened Basics
  import opened ChannelTables
  import opened ChannelOps

  /** What no settlement changes on a row. */
  predicate SameOrder(j: Job, k: Job) {
    k.due == j.due && k.expires == j.expires && k.snapshot == j.snapshot
  }

  predicate Unleased(j: Job) {
    j.token.None? && j.leaseUntil.None?
  }

  /** Every row of the envelope changes as told, and no other row does. */
  ghost predicate RowsChange(a: map<JobId, Job>, b: map<JobId, Job>, d: DispatchId, change: (Job, Job) -> bool) {
    && b.Keys == a.Keys
    && forall k | k in a :: if a[k].batch == Some(d) then change(a[k], b[k]) else b[k] == a[k]
  }

  ghost predicate OnlyMembers(a: Db, b: Db, d: DispatchId, change: (Job, Job) -> bool) {
    && RowsChange(a.jobs, b.jobs, d, change)
    && b.items == a.items && b.seeded == a.seeded && b.turns == a.turns && b.gates == a.gates
    && (forall e | e in a.dispatches && e != d :: e in b.dispatches && b.dispatches[e] == a.dispatches[e])
  }

  /** The state of the saved envelope, whose content never changes. */
  ghost predicate Marked(a: Db, b: Db, d: DispatchId, state: DispatchState, doubt: bool) {
    && b.dispatches.Keys == a.dispatches.Keys
    && (d in a.dispatches ==>
          b.dispatches[d] == a.dispatches[d].(state := state, uncertain := a.dispatches[d].uncertain || doubt))
  }

  /** Pending again and not before at; the attempt counts, or is taken back. */
  function GivenBack(at: Time, reason: Reason, counted: bool): (Job, Job) -> bool {
    (j: Job, k: Job) =>
      && k.state == Pending && Unleased(k) && k.nextAttempt == at && k.reason == reason && k.batch == j.batch
      && k.attempts == (if counted || j.attempts == 0 then j.attempts else j.attempts - 1)
      && SameOrder(j, k) && k.messageId == j.messageId && k.sentAt == j.sentAt
  }

  /** An owned envelope that is retried: its rows wait for the delay, and doubt is only ever added. */
  lemma RetryEffect(db: Db, b: Batch, now: Time, delay: Time, reason: Reason, counted: bool, ambiguous: bool)
    requires Owned(db, b)
    ensures var (next, ok) := RetryBatch(db, b, now, delay, reason, counted, ambiguous);
            && ok && OnlyMembers(db, next, b.id, GivenBack(now + Max(0.01, delay), reason, counted))
            && Marked(db, next, b.id, DPending, ambiguous) && next.limits == db.limits
  {
    OwnedHolds(db, b);
    RetryRows(db.jobs, b, now + Max(0.01, delay), reason, counted);
  }

  lemma RetryRows(jobs: map<JobId, Job>, b: Batch, at: Time, reason: Reason, counted: bool)
    requires AllHeld(jobs, b)
    ensures RowsChange(jobs, RetryJobs(jobs, b.id, b.token, at, reason, counted), b.id,
                       GivenBack(at, reason, counted))
  {
  }

  ghost predicate AllHeld(jobs: map<JobId, Job>, b: Batch) {
    forall k | k in jobs && jobs[k].batch == Some(b.id) :: jobs[k].token == Some(b.token)
  }

  lemma OwnedHolds(db: Db, b: Batch)
    requires Owned(db, b)
    ensures AllHeld(db.jobs, b)
  {
  }

  /** Settled for good under the message it became, with the time only when sent. */
  function SettledAs(state: JobState, messageId: Option<string>, reason: Reason, now: Time): (Job, Job) -> bool {
    (j: Job, k: Job) =>
      && k.state == state && Unleased(k) && k.messageId == messageId && k.reason == reason && k.batch == j.batch
      && k.sentAt == (if state == Sent then Some(now) else None)
      && k.attempts == j.attempts && k.nextAttempt == j.nextAttempt && SameOrder(j, k)
  }

  lemma FinishEffect(db: Db, b: Batch, state: JobState, messageId: Option<string>, reason: Reason, now: Time)
    requires Owned(db, b)
    ensures var (next, ok) := FinishBatch(db, b, state, messageId, reason, now);
            && ok && OnlyMembers(db, next, b.id, SettledAs(state, messageId, reason, now))
            && Marked(db, next, b.id, if state == Sent then DSent else if state == JobState.Failed then DFailed
                                      else DSkipped, false)
            && next.limits == db.limits
  {
    OwnedHolds(db, b);
    FinishRows(db.jobs, b, state, messageId, reason, now);
  }

  lemma FinishRows(jobs: map<JobId, Job>, b: Batch, state: JobState, messageId: Option<string>, reason: Reason,
                   now: Time)
    requires AllHeld(jobs, b)
    ensures RowsChange(jobs, FinishJobs(jobs, b.id, b.token, state, messageId, reason, now), b.id,
                       SettledAs(state, messageId, reason, now))
  {
  }

  /** Released from a split envelope: free, unattempted and ready at once. */
  function Freed(now: Time): (Job, Job) -> bool {
    (j: Job, k: Job) =>
      && k.state == Pending && Unleased(k) && k.batch.None? && k.attempts == 0 && k.nextAttempt == now
      && k.reason == TooLarge && SameOrder(j, k)
  }

  /** Held for review: pending, but not before it expires, so that no claim takes it again. */
  function HeldBack(j: Job, k: Job): bool {
    && k.state == Pending && Unleased(k) && k.batch == j.batch && k.nextAttempt == j.expires
    && k.attempts == j.attempts && k.reason == TooLargeReview && SameOrder(j, k)
  }

  function Refused(j: Job, k: Job): bool {
    && k.state == JobState.Failed && Unleased(k) && k.batch == j.batch && k.reason == TooLarge
    && k.attempts == j.attempts && SameOrder(j, k)
  }

  function TakenBack(j: Job, k: Job): bool {
    && k.state == JobState.Skipped && Unleased(k) && k.batch == j.batch && k.reason == Invalidated
    && k.attempts == j.attempts && SameOrder(j, k)
  }

  ghost predicate Became(a: Db, b: Db, d: DispatchId, change: (Job, Job) -> bool, state: DispatchState) {
    OnlyMembers(a, b, d, change) && Marked(a, b, d, state, false)
  }

  /** What a definite 413 comes to, by what is stored: cancelled when a row is no longer wanted, held
      when it may have been accepted before, failed when it is a single card, else split. */
  ghost predicate SplitTold(db: Db, b: Batch, now: Time, next: Db, outcome: SplitOutcome)
    requires ForeignKeys(db) && b.id in db.dispatches
  {
    var rows := RowsOf(db.jobs, b.id);
    match outcome
    case StaleSplit =>
      (exists k :: k in rows && !StillWanted(db, k, now))
      && Became(db, next, b.id, TakenBack, DSkipped) && next.limits == db.limits
    case HeldSplit =>
      (forall k | k in rows :: StillWanted(db, k, now)) && db.dispatches[b.id].uncertain
      && Became(db, next, b.id, HeldBack, DPending) && next.limits == db.limits
    case FailedSplit =>
      (forall k | k in rows :: StillWanted(db, k, now)) && !db.dispatches[b.id].uncertain && |rows| == 1
      && Became(db, next, b.id, Refused, DFailed) && next.limits == db.limits
    case SplitDone =>
      (forall k | k in rows :: StillWanted(db, k, now)) && !db.dispatches[b.id].uncertain && |rows| != 1
      && Became(db, next, b.id, Freed(now), DRejected) && Halved(db, next, b)
  }

  lemma SplitEffect(db: Db, b: Batch, now: Time)
    requires ForeignKeys(db) && Owned(db, b) && b.id in db.dispatches
    ensures var (next, outcome) := SplitRejected(db, b, now); SplitTold(db, b, now, next, outcome)
  {
    OwnedHolds(db, b);
    var rows := RowsOf(db.jobs, b.id);
    if !AllWanted(db, b.id, now) {
      CancelRows(db.jobs, b);
      var k :| k in db.jobs && db.jobs[k].batch == Some(b.id) && !StillWanted(db, k, now);
      assert k in rows;
      StaleIs(db, b, now);
    } else if db.dispatches[b.id].uncertain {
      HeldIs(db, b, now);
    } else if |rows| == 1 {
      FailedIs(db, b, now);
    } else {
      DoneIs(db, b, now);
    }
  }

  lemma StaleIs(db: Db, b: Batch, now: Time)
    requires ForeignKeys(db) && Owned(db, b) && b.id in db.dispatches && !AllWanted(db, b.id, now)
    ensures var (next, outcome) := SplitRejected(db, b, now);
            outcome == StaleSplit && Became(db, next, b.id, TakenBack, DSkipped) && next.limits == db.limits
  {
    OwnedHolds(db, b);
    CancelRows(db.jobs, b);
  }

  lemma HeldIs(db: Db, b: Batch, now: Time)
    requires ForeignKeys(db) && Owned(db, b) && b.id in db.dispatches && AllWanted(db, b.id, now)
    requires db.dispatches[b.id].uncertain
    ensures var (next, outcome) := SplitRejected(db, b, now);
            outcome == HeldSplit && Became(db, next, b.id, HeldBack, DPending) && next.limits == db.limits
  {
    OwnedHolds(db, b);
    SplitRows(db.jobs, b, now);
  }

  lemma FailedIs(db: Db, b: Batch, now: Time)
    requires ForeignKeys(db) && Owned(db, b) && b.id in db.dispatches && AllWanted(db, b.id, now)
    requires !db.dispatches[b.id].uncertain && |RowsOf(db.jobs, b.id)| == 1
    ensures var (next, outcome) := SplitRejected(db, b, now);
            outcome == FailedSplit && Became(db, next, b.id, Refused, DFailed) && next.limits == db.limits
  {
    OwnedHolds(db, b);
    SplitRows(db.jobs, b, now);
  }

  lemma DoneIs(db: Db, b: Batch, now: Time)
    requires ForeignKeys(db) && Owned(db, b) && b.id in db.dispatches && AllWanted(db, b.id, now)
    requires !db.dispatches[b.id].uncertain && |RowsOf(db.jobs, b.id)| != 1
    ensures var (next, outcome) := SplitRejected(db, b, now);
            outcome == SplitDone && Became(db, next, b.id, Freed(now), DRejected) && Halved(db, next, b)
  {
    OwnedHolds(db, b);
    SplitRows(db.jobs, b, now);
    HalvedLimit(db.limits, b.route, |RowsOf(db.jobs, b.id)|);
  }

  lemma HalvedLimit(limits: map<Route, nat>, route: Route, n: nat)
    ensures HalvedTo(limits, LearnLimit(limits, route, n), route, n)
  {
  }

  lemma SplitRows(jobs: map<JobId, Job>, b: Batch, now: Time)
    requires AllHeld(jobs, b)
    ensures RowsChange(jobs, HoldJobs(jobs, b.id, b.token), b.id, HeldBack)
    ensures RowsChange(jobs, FailJobs(jobs, b.id), b.id, Refused)
    ensures RowsChange(jobs, ReleaseJobs(jobs, b.id, b.token, now), b.id, Freed(now))
  {
  }

  lemma CancelRows(jobs: map<JobId, Job>, b: Batch)
    requires AllHeld(jobs, b) && forall k | k in jobs && jobs[k].batch == Some(b.id) :: jobs[k].Live()
    ensures RowsChange(jobs, CancelJobs(jobs, b.id, Some(b.token)), b.id, TakenBack)
  {
  }

  /** The route learns the smallest of what it knew, half the refused size, and five. */
  ghost predicate HalvedTo(before: map<Route, nat>, after: map<Route, nat>, route: Route, n: nat) {
    && after.Keys == before.Keys + {route}
    && (forall r | r in before && r != route :: after[r] == before[r])
    && after[route] <= 5 && 2 * after[route] <= n && (route in before ==> after[route] <= before[route])
    && (after[route] == 5 || 2 * after[route] + 1 >= n || (route in before && after[route] == before[route]))
  }

  ghost predicate Halved(db: Db, next: Db, b: Batch) {
    HalvedTo(db.limits, next.limits, b.route, |RowsOf(db.jobs, b.id)|)
  }

  // ---------------------------------------------------------------- ownership and leases

  /** All rows of the envelope, as many as the batch has, are leased under its token. */
  lemma OwnedTold(db: Db, b: Batch)
    ensures Owned(db, b) <==>
            |RowsOf(db.jobs, b.id)| == |b.jobs|
            && forall k | k in RowsOf(db.jobs, b.id) ::
                 db.jobs[k].state == JobState.Leased && db.jobs[k].token == Some(b.token)
  {
    forall k | k in db.jobs && db.jobs[k].batch == Some(b.id) ensures k in RowsOf(db.jobs, b.id) {}
  }

  /** A failed ownership check cancels what the token still holds, unless another claim has taken over. */
  lemma DisownTold(db: Db, b: Batch)
    ensures var next := Disown(db, b);
            var taken := exists k :: k in RowsOf(db.jobs, b.id) && db.jobs[k].state == JobState.Leased
                                     && db.jobs[k].token != Some(b.token);
            && (taken ==> next == db)
            && (!taken ==>
                  && next.jobs.Keys == db.jobs.Keys
                  && forall k | k in db.jobs ::
                       if db.jobs[k].batch == Some(b.id) && db.jobs[k].state in {Pending, JobState.Leased}
                          && db.jobs[k].token == Some(b.token)
                       then TakenBack(db.jobs[k], next.jobs[k]) else next.jobs[k] == db.jobs[k])
  {
    if Superseded(db, b) {
      var k :| k in db.jobs && db.jobs[k].batch == Some(b.id) && db.jobs[k].state.Leased?
               && db.jobs[k].token != Some(b.token);
      assert k in RowsOf(db.jobs, b.id);
    }
  }

  /** A card as it is frozen: the item as shown, with the times it was observed, or for a Free card the
      time it was first recorded, a day before it is due. */
  predicate CardTold(db: Db, k: JobId, c: Card)
    requires k in db.jobs && k.item in db.items
  {
    && c.route == k.route
    && c.item == (if db.jobs[k].snapshot != None then db.jobs[k].snapshot.value else db.items[k.item].payload)
    && (k.route == Free ==> c.firstSeen == c.lastSeen == db.jobs[k].due - 86400.0)
    && (k.route != Free ==> c.firstSeen == db.items[k.item].firstSeen && c.lastSeen == db.items[k.item].lastSeen)
  }

  /** What a granted claim does: its rows point at the envelope and are leased for a minute under the
      token, once more attempted; the batch tells the most attempts among them; a new envelope freezes a
      card of each row; a saved one keeps its body and is doubted when a lease was taken over. */
  lemma LeaseTold(db: Db, p: Pass, token: Token, now: Time)
    requires p.first in db.jobs && p.rows != [] && Known(db, p.rows)
    ensures var next := Lease(db, p, token, now); var b := BatchOf(db, p, token);
            && next.items == db.items && next.seeded == db.seeded && next.limits == db.limits && next.gates == db.gates
            && next.jobs.Keys == db.jobs.Keys
            && (forall k | k in db.jobs ::
                  next.jobs[k] == if k in p.rows
                                  then db.jobs[k].(state := JobState.Leased, batch := Some(b.id), token := Some(token),
                                                   leaseUntil := Some(now + 60.0), attempts := db.jobs[k].attempts + 1)
                                  else db.jobs[k])
            && b.jobs == p.rows && b.token == token && b.route == p.first.route
            && b.id in next.dispatches && next.dispatches[b.id].state == DLeased && b.body == next.dispatches[b.id].body
            && (forall d | d in db.dispatches && d != b.id ::
                  d in next.dispatches && next.dispatches[d] == db.dispatches[d])
  {
  }

  lemma {:induction false} AttemptsTold(db: Db, rows: seq<JobId>)
    requires rows != [] && forall k | k in rows :: k in db.jobs
    ensures forall k | k in rows :: db.jobs[k].attempts + 1 <= MostAttempts(db, rows)
    ensures exists k :: k in rows && db.jobs[k].attempts + 1 == MostAttempts(db, rows)
    decreases |rows|
  {
    var n := |rows| - 1;
    assert rows == rows[..n] + [rows[n]];
    if n > 0 { AttemptsTold(db, rows[..n]); }
    assert rows[n] in rows;
  }

  /** The frozen record of a claim. */
  lemma EnvelopeTold(db: Db, p: Pass)
    requires p.first in db.jobs && p.rows != [] && Known(db, p.rows)
    ensures var e, d := Envelope(db, p), db.jobs[p.first].batch;
            && (d.Some? && d.value in db.dispatches ==>
                  && EnvelopeId(db, p) == d.value
                  && e == db.dispatches[d.value].(state := DLeased, uncertain := e.uncertain)
                  && (e.uncertain <==> db.dispatches[d.value].uncertain
                                       || exists k :: k in p.rows && db.jobs[k].state == JobState.Leased))
            && (d.None? ==>
                  && EnvelopeId(db, p) == (if |p.rows| == 1 then Single(p.rows[0]) else Bundle(p.rows))
                  && e.route == p.first.route && e.members == p.rows && !e.uncertain
                  && e.body.nonce == EnvelopeId(db, p) && |e.body.cards| == |p.rows|
                  && forall i | 0 <= i < |p.rows| :: p.rows[i] in p.rows && CardTold(db, p.rows[i], e.body.cards[i]))
  {
  }
}
