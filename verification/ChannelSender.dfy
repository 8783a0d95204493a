/** The sender over the job store: how one POST's outcome becomes a store transition. */
module ChannelSender {
  import opened Basics
  import opened ChannelTables
  import opened Provider
  import opened ChannelOps
  import opened ChannelInvariant
  import opened ChannelEffects
  import opened ChannelRun
  import opened ChannelStore

  datatype Counted = CountRetried | CountSkipped | CountFailed | CountSent

  function Pow2(n: nat): nat {
    if n == 0 then 1 else 2 * Pow2(n - 1)
  }

  /** Provider delays are followed, five seconds without one; other failures wait 2, 4, 8 and so on
      to 256 seconds, so that the ceiling of 300 is never reached. */
  function RetryDelay(reply: Reply, retryAfter: Option<Time>, attempts: nat): (delay: Time)
    ensures delay >= 0.01
    ensures StatusOf(reply) == Some(429) && retryAfter.Some? ==> delay >= retryAfter.value
    ensures StatusOf(reply) == Some(429) && retryAfter.Some? && retryAfter.value >= 0.01 ==> delay == retryAfter.value
    ensures StatusOf(reply) == Some(429) && retryAfter.None? ==> delay == 5.0
  {
    if StatusOf(reply) == Some(429) then Max(0.01, if retryAfter.Some? then retryAfter.value else 5.0)
    else Max(0.01, Min(300, Pow2(Min(attempts, 8))) as real)
  }

  lemma {:induction false} Powers(n: nat)
    requires n <= 8
    ensures 1 <= Pow2(n) <= 256 && (n == 8 ==> Pow2(n) == 256)
    decreases 8 - n
  {
    if n < 8 {
      Powers(n + 1);
      assert Pow2(n + 1) == 2 * Pow2(n);
    } else {
      assert Pow2(4) == 16;
      assert Pow2(6) == 4 * Pow2(4);
    }
  }

  /** Each failed attempt doubles the wait until it stays at 256 seconds. */
  lemma BackoffDoubles(reply: Reply, retryAfter: Option<Time>, attempts: nat)
    requires StatusOf(reply) != Some(429)
    ensures attempts < 8 ==>
              RetryDelay(reply, retryAfter, attempts + 1) == 2.0 * RetryDelay(reply, retryAfter, attempts)
    ensures attempts >= 8 ==> RetryDelay(reply, retryAfter, attempts) == 256.0
    ensures RetryDelay(reply, retryAfter, 0) == 1.0
  {
    if attempts < 8 {
      Powers(attempts);
      Powers(attempts + 1);
    } else {
      Powers(8);
    }
  }

  function FailureReason(reply: Reply): Reason {
    if StatusOf(reply).Some? then Other("http_status") else Other("retry_limit")
  }

  /** Gates are moved before the batch of a rate-limited POST is given back. */
  function Cooled(db: Db, b: Batch, reply: Reply, global: bool, now: Time, delay: Time): Db {
    if StatusOf(reply) == Some(429)
    then Defer(db, if global then GlobalGate else RouteGate(b.route), now + delay) else db
  }

  function ReasonFor(reply: Reply, attempts: nat): Reason {
    if SettlementFor(reply, attempts).SettleFailed? then FailureReason(reply)
    else if StatusOf(reply) == Some(429) then Other("rate_limited")
    else Other("remote_retry")
  }

  /** A definite 413 is split, held, failed or found stale. */
  method SettleTooLarge(store: JobStore, b: Batch, now: Time) returns (counted: Counted)
    requires store.Valid() && Names(store.Tables(), b)
    modifies store
    ensures store.Valid() && store.Tables() == SplitRejected(old(store.Tables()), b, now).0
    ensures counted == match SplitRejected(old(store.Tables()), b, now).1
                       case SplitDone => CountRetried
                       case HeldSplit => CountRetried
                       case FailedSplit => CountFailed
                       case StaleSplit => CountSkipped
  {
    var outcome := store.SplitBatch(b, now);
    match outcome
    case SplitDone => counted := CountRetried;
    case HeldSplit => counted := CountRetried;
    case FailedSplit => counted := CountFailed;
    case StaleSplit => counted := CountSkipped;
  }

  /** Move the gate a 429 named, then give the envelope back. */
  method BackOff(store: JobStore, b: Batch, gate: Option<Gate>, now: Time, delay: Time, reason: Reason,
                 countAttempt: bool, ambiguous: bool)
    requires store.Valid()
    modifies store
    ensures store.Valid()
    ensures var db := if gate.Some? then Defer(old(store.Tables()), gate.value, now + delay)
                      else old(store.Tables());
            store.Tables() == RetryBatch(db, b, now, delay, reason, countAttempt, ambiguous).0
  {
    if gate.Some? {
      store.DeferGate(gate.value, now + delay);
    }
    var _ := store.Retry(b, now, delay, reason, countAttempt, ambiguous);
  }

  /** A rate-limited reply is always tried again; no other reply moves a gate. */
  lemma LimitedIsRetried(db: Db, b: Batch, reply: Reply, global: bool, now: Time, delay: Time)
    ensures StatusOf(reply) == Some(429) ==> SettlementFor(reply, b.attempts).SettleRetry?
    ensures !SettlementFor(reply, b.attempts).SettleRetry? ==> Cooled(db, b, reply, global, now, delay) == db
  {
  }

  /** A settlement without another attempt: sent, split or failed for good. */
  method SettleForGood(store: JobStore, b: Batch, reply: Reply, messageId: string, now: Time, ghost delay: Time)
    returns (counted: Counted)
    requires store.Valid() && Names(store.Tables(), b) && !SettlementFor(reply, b.attempts).SettleRetry?
    modifies store
    ensures store.Valid() && ForeignKeys(old(store.Tables()))
    ensures store.Tables()
            == Settled(old(store.Tables()), b, reply, now, messageId, delay, ReasonFor(reply, b.attempts))
    ensures counted.CountSent? <==> reply == Created(true) && Owned(old(store.Tables()), b)
  {
    match SettlementFor(reply, b.attempts)
    case SettleSent =>
      var settled, _ := store.Finish(b, JobState.Sent, Some(messageId), NoReason, now);
      counted := if settled then CountSent else CountSkipped;
    case SettleSplit =>
      counted := SettleTooLarge(store, b, now);
    case SettleFailed =>
      var _, _ := store.Finish(b, JobState.Failed, None, FailureReason(reply), now);
      counted := CountFailed;
  }

  /** Another attempt, behind the gate that a rate limit names. */
  method TryAgain(store: JobStore, b: Batch, reply: Reply, ghost messageId: string, global: bool, now: Time,
                  delay: Time)
    requires store.Valid() && Names(store.Tables(), b) && SettlementFor(reply, b.attempts).SettleRetry?
    requires delay >= 0.01
    modifies store
    ensures store.Valid()
    ensures Owned(old(store.Tables()), b) ==>
              RowsChange(old(store.Tables()).jobs, store.Tables().jobs, b.id,
                         GivenBack(now + delay, ReasonFor(reply, b.attempts), StatusOf(reply) != Some(429)))
    ensures var db := Cooled(old(store.Tables()), b, reply, global, now, delay);
            && ForeignKeys(db)
            && store.Tables() == Settled(db, b, reply, now, messageId, delay, ReasonFor(reply, b.attempts))
  {
    RepliesSettle(reply, b.attempts);
    if Owned(store.Tables(), b) { RetryWaits(store.Tables(), b, reply, global, now, delay, messageId); }
    var limited := StatusOf(reply) == Some(429);
    var gate := if limited then Some(if global then GlobalGate else RouteGate(b.route)) else None;
    RetrySettles(Cooled(store.Tables(), b, reply, global, now, delay), b, reply, now, messageId, delay);
    BackOff(store, b, gate, now, delay, ReasonFor(reply, b.attempts), !limited, Effect(reply).MayHaveBeenAccepted());
  }

  lemma RetrySettles(db: Db, b: Batch, reply: Reply, now: Time, messageId: string, delay: Time)
    requires ForeignKeys(db) && SettlementFor(reply, b.attempts).SettleRetry?
    ensures var reason := ReasonFor(reply, b.attempts);
            Settled(db, b, reply, now, messageId, delay, reason)
            == RetryBatch(db, b, now, delay, reason, StatusOf(reply) != Some(429),
                          Effect(reply).MayHaveBeenAccepted()).0
  {
  }

  /** What is tried again waits for the delay. */
  lemma RetryWaits(db: Db, b: Batch, reply: Reply, global: bool, now: Time, delay: Time, messageId: string)
    requires ForeignKeys(db) && Retryable(reply, b.attempts) && Owned(db, b) && delay >= 0.01
    ensures var reason := ReasonFor(reply, b.attempts);
            RowsChange(db.jobs, Settled(Cooled(db, b, reply, global, now, delay), b, reply, now, messageId, delay,
                                        reason).jobs,
                       b.id, GivenBack(now + delay, reason, StatusOf(reply) != Some(429)))
  {
    var cooled := Cooled(db, b, reply, global, now, delay);
    CooledRows(db, b, reply, global, now, delay);
    RetrySettles(cooled, b, reply, now, messageId, delay);
    RetriedRows(cooled, b, now, delay, ReasonFor(reply, b.attempts), StatusOf(reply) != Some(429),
                Effect(reply).MayHaveBeenAccepted());
  }

  /** A cooldown touches no row. */
  lemma CooledRows(db: Db, b: Batch, reply: Reply, global: bool, now: Time, delay: Time)
    ensures var cooled := Cooled(db, b, reply, global, now, delay);
            cooled.jobs == db.jobs && (Owned(cooled, b) <==> Owned(db, b)) && (ForeignKeys(cooled) <==> ForeignKeys(db))
  {
  }

  lemma RetriedRows(db: Db, b: Batch, now: Time, delay: Time, reason: Reason, counted: bool, ambiguous: bool)
    requires Owned(db, b) && delay >= 0.01
    ensures RowsChange(db.jobs, RetryBatch(db, b, now, delay, reason, counted, ambiguous).0.jobs, b.id,
                       GivenBack(now + delay, reason, counted))
  {
    RetryEffect(db, b, now, delay, reason, counted, ambiguous);
  }

  /** Settle one POST: exactly the transition that the run model takes, after any cooldown. */
  method SettleReply(store: JobStore, b: Batch, reply: Reply, messageId: string, global: bool,
                     retryAfter: Option<Time>, now: Time) returns (counted: Counted)
    requires store.Valid() && Names(store.Tables(), b)
    modifies store
    ensures store.Valid()
    ensures var delay := RetryDelay(reply, retryAfter, b.attempts);
            var db := Cooled(old(store.Tables()), b, reply, global, now, delay);
            && ForeignKeys(db)
            && store.Tables() == Settled(db, b, reply, now, messageId, delay, ReasonFor(reply, b.attempts))
    ensures counted.CountSent? <==> reply == Created(true) && Owned(old(store.Tables()), b)
    ensures Retryable(reply, b.attempts) && Owned(old(store.Tables()), b) ==>
              RowsChange(old(store.Tables()).jobs, store.Tables().jobs, b.id,
                         GivenBack(now + RetryDelay(reply, retryAfter, b.attempts), ReasonFor(reply, b.attempts),
                                   StatusOf(reply) != Some(429)))
  {
    var delay := RetryDelay(reply, retryAfter, b.attempts);
    LimitedIsRetried(store.Tables(), b, reply, global, now, delay);
    RepliesSettle(reply, b.attempts);
    if SettlementFor(reply, b.attempts).SettleRetry? {
      TryAgain(store, b, reply, messageId, global, now, delay);
      counted := CountRetried;
    } else {
      counted := SettleForGood(store, b, reply, messageId, now, delay);
    }
  }
}
