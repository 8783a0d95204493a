/** What the answer to a POST leaves of its envelope, told on the rows. */
module ChannelReplies {
  import opened Basics
  import opened Provider
  import opened ChannelTables
  import opened ChannelOps
  import opened ChannelEffects
  import opened ChannelRun

  /** Sent under its message when confirmed; split, held or failed behind a definite 413; tried again
      behind a retryable answer, in doubt if it may have been delivered; failed otherwise. */
  ghost predicate EnvelopeAfter(db: Db, next: Db, b: Batch, reply: Reply, now: Time, messageId: string, delay: Time,
                                reason: Reason)
    requires ForeignKeys(db) && b.id in db.dispatches
  {
    if reply == Created(true) then
      OnlyMembers(db, next, b.id, SettledAs(Sent, Some(messageId), NoReason, now))
      && Marked(db, next, b.id, DSent, false)
    else if reply == Status(413) then exists outcome :: SplitTold(db, b, now, next, outcome)
    else if Retryable(reply, b.attempts) then
      OnlyMembers(db, next, b.id, GivenBack(now + Max(0.01, delay), reason, StatusOf(reply) != Some(429)))
      && Marked(db, next, b.id, DPending, MaybeDelivered(reply))
    else
      OnlyMembers(db, next, b.id, SettledAs(JobState.Failed, None, reason, now))
      && Marked(db, next, b.id, DFailed, false)
  }

  lemma ReplySettles(db: Db, b: Batch, reply: Reply, now: Time, messageId: string, delay: Time, reason: Reason)
    requires ForeignKeys(db) && Owned(db, b) && b.id in db.dispatches
    ensures EnvelopeAfter(db, Settled(db, b, reply, now, messageId, delay, reason), b, reply, now, messageId, delay,
                          reason)
  {
    RepliesSettle(reply, b.attempts);
    match SettlementFor(reply, b.attempts)
    case SettleSent => FinishEffect(db, b, Sent, Some(messageId), NoReason, now);
    case SettleSplit =>
      SplitEffect(db, b, now);
      assert SplitTold(db, b, now, SplitRejected(db, b, now).0, SplitRejected(db, b, now).1);
    case SettleFailed => FinishEffect(db, b, JobState.Failed, None, reason, now);
    case SettleRetry(counted, ambiguous) => RetryEffect(db, b, now, delay, reason, counted, ambiguous);
  }

  /** The answer to a POST whose envelope was lost in the meantime is only cancelled where it still
      holds its token. */
  lemma LateReplyDisowns(db: Db, b: Batch, reply: Reply, now: Time, messageId: string, delay: Time, reason: Reason)
    requires ForeignKeys(db) && !Owned(db, b)
    ensures Settled(db, b, reply, now, messageId, delay, reason) == Disown(db, b)
  {
  }
}
