/** The welcome ledger told on its rows: who is greeted, what housekeeping removes, and what each reply
    to a greeting leaves. */
module WelcomeRows {
  import opened Basics
  import opened Ranking
  import opened Provider
  import opened WelcomeTables

  /** A new join, by a member who was not greeted in the last day. */
  predicate Welcomed(db: Db, m: Message, now: Time) {
    && m.id > db.cursor && m.joiner != None && m.id !in db.welcomes
    && !(m.joiner.value in db.cooldowns && db.cooldowns[m.joiner.value] > now)
  }

  /** It is queued, due at once, and starts the member's day. */
  lemma JoinTold(db: Db, m: Message, now: Time)
    ensures var next := AddJoin(db, m, now);
            && (!Welcomed(db, m, now) ==> next == db)
            && (Welcomed(db, m, now) ==>
                  && next.cursor == db.cursor && next.scan == db.scan
                  && next.welcomes == db.welcomes[m.id := next.welcomes[m.id]]
                  && next.welcomes[m.id] == Welcome(m.joiner.value, Pending, now, None, now, None)
                  && next.cooldowns == db.cooldowns[m.joiner.value := now + 86400.0])
  {
  }

  function Ids(page: seq<Message>, above: MessageId): set<MessageId> {
    set m | m in page && m.id > above :: m.id
  }

  lemma {:induction false} IncomingCounts(cursor: MessageId, page: seq<Message>)
    requires Ascending(page)
    ensures Incoming(cursor, page) == |Ids(page, cursor)|
    decreases |page|
  {
    if page == [] {
      assert Ids(page, cursor) == {};
    } else {
      var front, last := page[..|page| - 1], page[|page| - 1];
      IncomingCounts(cursor, front);
      LastIsNewest(page);
      IdsMore(front, last, cursor);
      assert page == front + [last];
    }
  }

  lemma LastIsNewest(page: seq<Message>)
    requires page != [] && Ascending(page)
    ensures forall m | m in page[..|page| - 1] :: m.id < page[|page| - 1].id
  {
    forall m | m in page[..|page| - 1] ensures m.id < page[|page| - 1].id {
      var i :| 0 <= i < |page| - 1 && page[i] == m;
    }
  }

  lemma IdsMore(front: seq<Message>, m: Message, above: MessageId)
    requires forall o | o in front :: o.id < m.id
    ensures |Ids(front + [m], above)| == |Ids(front, above)| + if m.id > above then 1 else 0
  {
    var before, after := Ids(front, above), Ids(front + [m], above);
    assert m.id !in before;
    forall o | o in front + [m] ensures o in front || o == m {}
    forall o | o in front ensures o in front + [m] {}
    assert m in front + [m];
    assert after == if m.id > above then before + {m.id} else before;
  }

  function Queued(db: Db): set<MessageId> {
    set id | id in db.welcomes && db.welcomes[id].state in {Pending, Sending}
  }

  /** A page in id order is accepted exactly when all its new messages would fit the thousand. */
  lemma FitsTold(db: Db, page: seq<Message>)
    requires Ascending(page)
    ensures Fits(db, page) <==> |Queued(db)| + |Ids(page, db.cursor)| <= 1000
  {
    IncomingCounts(db.cursor, page);
    assert Queued(db) == LiveWelcomes(db.welcomes);
  }

  /** The newest message seen in this scan. */
  predicate Newest(db: Db, page: seq<Message>, top: MessageId) {
    && (forall m | m in page :: m.id <= top) && db.cursor <= top && (db.scan != None ==> db.scan.value.head <= top)
    && (top == db.cursor || (db.scan != None && top == db.scan.value.head) || exists m :: m in page && m.id == top)
  }

  /** The last page of a scan moves the cursor to the newest message of the scan; any other page moves
      the scan on below its oldest one. */
  lemma AdvanceTold(db: Db, page: seq<Message>)
    requires Ascending(page)
    ensures var next := Advance(db, page);
            && next.welcomes == db.welcomes && next.cooldowns == db.cooldowns
            && (|page| < 100 || (exists m :: m in page && m.id <= db.cursor) ==>
                  next.scan == None && Newest(db, page, next.cursor))
            && (|page| >= 100 && (forall m | m in page :: m.id > db.cursor) ==>
                  next.cursor == db.cursor && next.scan != None && Newest(db, page, next.scan.value.head)
                  && next.scan.value.before == page[0].id)
  {
    if page != [] {
      forall m | m in page ensures m.id <= page[|page| - 1].id {
        var i :| 0 <= i < |page| && page[i] == m;
      }
    }
  }

  /** Greetings that waited a day are skipped; what was finished a week ago, and cooldowns that lapsed,
      are forgotten; nothing else moves. */
  lemma HousekeepTold(db: Db, now: Time)
    ensures var next := Housekeep(db, now);
            && next.cursor == db.cursor && next.scan == db.scan
            && (forall id | id in db.welcomes ::
                  var w := db.welcomes[id];
                  var late := w.state == Pending && w.created < now - 86400.0;
                  var done := late || w.state !in {Pending, Sending};
                  && (id in next.welcomes <==> !(done && w.created < now - 7.0 * 86400.0))
                  && (id in next.welcomes ==> next.welcomes[id] == if late then w.(state := Skipped) else w))
            && (forall id | id in next.welcomes :: id in db.welcomes)
            && (forall u :: u in next.cooldowns <==> u in db.cooldowns && db.cooldowns[u] > now)
            && (forall u | u in next.cooldowns :: next.cooldowns[u] == db.cooldowns[u])
  {
  }

  /** Due greetings: queued, with their time come. */
  predicate IsDue(db: Db, id: MessageId, now: Time) {
    id in db.welcomes && db.welcomes[id].state in {Pending, Sending} && db.welcomes[id].nextAttempt <= now
  }

  /** A tick takes the oldest of them, at most n. */
  lemma OldestDue(db: Db, now: Time, n: nat, rows: seq<MessageId>)
    requires TopOf(Due(db, now), n, rows)
    ensures |rows| <= n && forall id | id in rows :: IsDue(db, id, now)
    ensures forall i, j | 0 <= i < j < |rows| ::
              rows[i] in db.welcomes && rows[j] in db.welcomes
              && db.welcomes[rows[i]].created <= db.welcomes[rows[j]].created
    ensures forall o, id | IsDue(db, o, now) && o !in rows && id in rows ::
              id in db.welcomes && db.welcomes[id].created <= db.welcomes[o].created
  {
    var due := Due(db, now);
    forall id ensures id in due <==> IsDue(db, id, now) {}
    forall i, j | 0 <= i < j < |rows|
      ensures rows[i] in db.welcomes && rows[j] in db.welcomes
              && db.welcomes[rows[i]].created <= db.welcomes[rows[j]].created
    {
      assert rows[i] in rows && rows[j] in rows && !Less(due[rows[j]], due[rows[i]]);
    }
    forall o, id | IsDue(db, o, now) && o !in rows && id in rows
      ensures id in db.welcomes && db.welcomes[id].created <= db.welcomes[o].created
    {
      assert !Less(due[o], due[id]);
    }
  }

  ghost predicate OnlyWelcome(a: Db, b: Db, id: MessageId) {
    && b.cursor == a.cursor && b.scan == a.scan && b.cooldowns == a.cooldowns && b.welcomes.Keys == a.welcomes.Keys
    && forall o | o in a.welcomes && o != id :: b.welcomes[o] == a.welcomes[o]
  }

  /** What a reply comes to: a confirmed greeting is sent under its message, a rate limit waits for the
      delay, a second at least, a definite refusal fails, and anything else may have been sent and
      stays as it is. */
  lemma ReplyTold(db: Db, id: MessageId, reply: Reply, message: MessageId, delay: Time, now: Time)
    requires id in db.welcomes
    ensures var next := Concluded(db, id, reply, message, delay, now); var w, v := db.welcomes[id], next.welcomes[id];
            && OnlyWelcome(db, next, id)
            && (if reply == Created(true) then v == w.(state := Sent, message := Some(message))
                else if reply == Status(429) || reply == LocalLimit then
                  v == w.(state := Pending, nextAttempt := v.nextAttempt)
                  && v.nextAttempt >= now + delay && v.nextAttempt >= now + 1.0
                  && (v.nextAttempt == now + delay || v.nextAttempt == now + 1.0)
                else if reply in {Status(400), Status(401), Status(403), Status(404)} then
                  v == w.(state := Failed, message := None)
                else v == w)
  {
  }

  lemma ClaimRowTold(db: Db, id: MessageId, now: Time)
    ensures MayClaim(db, id) <==> id in db.welcomes && db.welcomes[id].state == Pending
    ensures MayClaim(db, id) ==>
              var next := ClaimRow(db, id, now);
              OnlyWelcome(db, next, id)
              && next.welcomes[id] == db.welcomes[id].(state := Sending, attempted := Some(now))
  {
  }
}
