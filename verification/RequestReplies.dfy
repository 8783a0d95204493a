/** What the answer to a personal message leaves of its alert and its member, told on the rows. */
module RequestReplies {
  import opened Basics
  import opened Provider
  import opened RequestTables
  import opened RequestRows
  import opened RequestRun

  /** Given back for the delay, a twentieth of a second at least. */
  predicate TriedAgain(r: Alert, q: Alert, now: Time, delay: Time) {
    && q == r.(state := Pending, token := None, leaseUntil := None, nextAttempt := q.nextAttempt)
    && q.nextAttempt >= now + delay && q.nextAttempt >= now + 0.05
    && (q.nextAttempt == now + delay || q.nextAttempt == now + 0.05)
  }

  /** Sent under its message when confirmed; to review when it may have been delivered; failed when the
      provider refused the content, the sender or the destination; tried again otherwise. */
  predicate AlertAfter(r: Alert, q: Alert, reply: Reply, now: Time, messageId: nat, delay: Time) {
    if reply == Created(true) then q == r.(state := Sent, messageId := Some(messageId))
    else if MaybeDelivered(reply) then q == r.(state := Review, messageId := None)
    else if reply in {Status(400), Status(401), Status(403), Status(404)} then
      q == r.(state := Failed, messageId := None)
    else TriedAgain(r, q, now, delay)
  }

  /** A missing destination asks for a new test, a forbidden one is blocked; the channel stays known. */
  predicate MemberAfter(before: map<UserId, User>, after: map<UserId, User>, user: UserId, reply: Reply) {
    if reply == Status(404) || reply == Status(403) then
      && user in after && after == before[user := after[user]]
      && after[user].status == (if reply == Status(404) then NeedsTest else Blocked)
      && after[user].channel == if user in before then before[user].channel else None
    else after == before
  }

  ghost predicate AlertOnly(db: Db, next: Db, a: AlertId) {
    && next.requests == db.requests && next.matches == db.matches && next.alerts.Keys == db.alerts.Keys
    && forall o | o in db.alerts && o != a :: next.alerts[o] == db.alerts[o]
  }

  lemma ReplySettles(db: Db, a: AlertId, t: Token, reply: Reply, now: Time, messageId: nat, delay: Time)
    requires a in db.alerts && db.alerts[a].token == Some(t) && db.alerts[a].state in {Leased, Sending}
    ensures var next := Concluded(db, a, t, reply, now, messageId, delay);
            && AlertOnly(db, next, a) && AlertAfter(db.alerts[a], next.alerts[a], reply, now, messageId, delay)
            && MemberAfter(db.users, next.users, a.user, reply)
  {
    EffectTold(reply);
    if reply == Status(403) || reply == Status(404) {
      var dm := SetDm(db, a.user, if reply == Status(404) then NeedsTest else Blocked, None);
      SettleTold(dm, a, t, Failed, None);
    } else if reply == Created(true) || MaybeDelivered(reply) || reply == Status(400) || reply == Status(401) {
      SettledReply(db, a, t, reply, now, messageId, delay);
    } else {
      RetriedReply(db, a, t, reply, now, messageId, delay);
    }
  }

  lemma SettledReply(db: Db, a: AlertId, t: Token, reply: Reply, now: Time, messageId: nat, delay: Time)
    requires a in db.alerts && db.alerts[a].token == Some(t) && db.alerts[a].state in {Leased, Sending}
    requires reply == Created(true) || MaybeDelivered(reply) || reply == Status(400) || reply == Status(401)
    ensures var next := Concluded(db, a, t, reply, now, messageId, delay);
            && AlertOnly(db, next, a) && AlertAfter(db.alerts[a], next.alerts[a], reply, now, messageId, delay)
            && next.users == db.users
  {
    EffectTold(reply);
    SettleTold(db, a, t, Sent, Some(messageId));
    SettleTold(db, a, t, Review, None);
    SettleTold(db, a, t, Failed, None);
  }

  lemma RetriedReply(db: Db, a: AlertId, t: Token, reply: Reply, now: Time, messageId: nat, delay: Time)
    requires a in db.alerts && db.alerts[a].token == Some(t) && db.alerts[a].state in {Leased, Sending}
    requires !MaybeDelivered(reply) && reply !in {Status(400), Status(401), Status(403), Status(404)}
    ensures var next := Concluded(db, a, t, reply, now, messageId, delay);
            && AlertOnly(db, next, a) && AlertAfter(db.alerts[a], next.alerts[a], reply, now, messageId, delay)
            && next.users == db.users
  {
    EffectTold(reply);
    RetryTold(db, a, t, now, delay);
  }

  /** And without the token, or once settled, an answer changes no alert. */
  lemma LateReplySettlesNothing(db: Db, a: AlertId, t: Token, reply: Reply, now: Time, messageId: nat, delay: Time)
    requires !(a in db.alerts && db.alerts[a].token == Some(t) && db.alerts[a].state in {Leased, Sending})
    ensures Concluded(db, a, t, reply, now, messageId, delay).alerts == db.alerts
  {
  }
}
