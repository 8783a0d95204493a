/** Whole runs of the welcome worker over a log that grows while its pages are read. */
module WelcomeRun {
  import opened Basics
  import opened Provider
  import opened WelcomeTables

  datatype Stage =
    | Idle
    | Fetched(page: seq<Message>, top: MessageId)
    | Claimed(id: MessageId)
    | Replied(id: MessageId, reply: Reply)

  datatype Post = Post(id: MessageId, reply: Reply)

  datatype Greeting = Greeting(id: MessageId, user: UserId, at: Time)

  /** considered: every message the intake loop went over; greetings: every outbox row ever made. */
  datatype System = System(
    db: Db, now: Time, log: seq<Message>, floor: MessageId, stage: Stage,
    considered: set<MessageId>, greetings: seq<Greeting>, posts: seq<Post>)

  /** A fresh ledger: the cursor starts at the activation time's id. */
  ghost predicate Start(s: System) {
    && s.db == Db(s.floor, None, map[], map[]) && s.stage == Idle && Ascending(s.log)
    && s.considered == {} && s.greetings == [] && s.posts == []
  }

  datatype Event =
    | Tick(later: Time)
    | Arrive(m: Message)
    | Housekeeping
    | Fetch(page: seq<Message>)
    | IngestPage
    | Reconcile(id: MessageId, found: Option<MessageId>)
    | Claim(id: MessageId)
    | GiveBack
    | Submit(reply: Reply)
    | Conclude(message: MessageId, delay: Time)
    | Crash

  function Top(log: seq<Message>): MessageId {
    if log == [] then 0 else log[|log| - 1].id
  }

  ghost predicate Enabled(s: System, e: Event) {
    match e
    case Tick(later) => s.now <= later
    case Arrive(m) => m.id > Top(s.log)
    case Housekeeping => s.stage.Idle?
    case Fetch(page) => s.stage.Idle? && PageOf(s.log, s.db.scan, page)
    case IngestPage => s.stage.Fetched?
    case Reconcile(id, _) => s.stage.Idle? && id in s.db.welcomes && s.db.welcomes[id].state.Sending?
    case Claim(id) => s.stage.Idle? && MayClaim(s.db, id)
    case GiveBack => s.stage.Claimed?
    case Submit(_) => s.stage.Claimed?
    case Conclude(_, _) => s.stage.Replied?
    case Crash => true
  }

  /** Ids above the cursor, each looked at by the intake loop. */
  function Seen(cursor: MessageId, page: seq<Message>): set<MessageId> {
    set m | m in page && m.id > cursor :: m.id
  }

  /** The rows one page adds to the outbox, in order. */
  function Made(db: Db, page: seq<Message>, now: Time): seq<Greeting> {
    if page == [] then []
    else
      var n := |page| - 1;
      Made(db, page[..n], now)
      + if Greets(AddJoins(db, page[..n], now), page[n], now)
        then [Greeting(page[n].id, page[n].joiner.value, now)] else []
  }

  function Step(s: System, e: Event): System
    requires e.Claim? ==> MayClaim(s.db, e.id)
  {
    match e
    case Tick(later) => s.(now := later)
    case Arrive(m) => s.(log := s.log + [m])
    case Housekeeping => s.(db := Housekeep(s.db, s.now))
    case Fetch(page) => s.(stage := Fetched(page, Top(s.log)))
    case IngestPage =>
      if !s.stage.Fetched? then s
      else if !Fits(s.db, s.stage.page) then s.(stage := Idle)
      else
        s.(db := Ingest(s.db, s.stage.page, s.now).0, stage := Idle,
           considered := s.considered + Seen(s.db.cursor, s.stage.page),
           greetings := s.greetings + Made(s.db, s.stage.page, s.now))
    case Reconcile(id, found) =>
      s.(db := if found.Some? then SettleRow(s.db, id, Sent, found) else SettleRow(s.db, id, Review, None))
    case Claim(id) => s.(db := ClaimRow(s.db, id, s.now), stage := Claimed(id))
    case GiveBack => if s.stage.Claimed? then s.(db := SettleRow(s.db, s.stage.id, Pending, None), stage := Idle) else s
    case Submit(reply) =>
      if s.stage.Claimed? then s.(posts := s.posts + [Post(s.stage.id, reply)], stage := Replied(s.stage.id,
              reply)) else s
    case Conclude(message, delay) =>
      if s.stage.Replied?
      then s.(db := Concluded(s.db, s.stage.id, s.stage.reply, message, delay, s.now), stage := Idle) else s
    case Crash => s.(stage := Idle)
  }

  // ---------------------------------------------------------------- the scan

  ghost predicate LogOk(s: System) {
    && Ascending(s.log)
    && (s.db.cursor == s.floor || (s.floor < s.db.cursor <= Top(s.log)))
  }

  /** Nothing at or below the cursor, and nothing in the part already scanned, was passed over. */
  ghost predicate NoGap(s: System) {
    && (forall m | m in s.log && s.floor < m.id <= s.db.cursor :: m.id in s.considered)
    && (s.db.scan.Some? ==>
          var scan := s.db.scan.value;
          && s.db.cursor < scan.before <= scan.head <= Top(s.log)
          && forall m | m in s.log && scan.before <= m.id <= scan.head :: m.id in s.considered)
    && (forall x | x in s.considered && x > s.db.cursor ::
          s.db.scan.Some? && s.db.scan.value.before <= x <= s.db.scan.value.head)
    && (forall x | x in s.considered :: x > s.floor)
  }

  /** A page in hand, against the log as it is now. */
  ghost predicate PageOk(s: System) {
    s.stage.Fetched? ==>
      var page, top := s.stage.page, s.stage.top;
      && Ascending(page) && |page| <= PAGE && top <= Top(s.log)
      && (s.db.scan.Some? ==> s.db.scan.value.head <= top)
      && (forall m | m in page :: m in s.log && Below(s.db.scan, m.id) && m.id <= top)
      && (forall m | m in s.log && m.id <= top && Below(s.db.scan, m.id) && m !in page ::
            |page| == PAGE && m.id < page[0].id)
  }

  ghost predicate ScanInv(s: System) {
    LogOk(s) && NoGap(s) && PageOk(s)
  }

  lemma TopIsTop(log: seq<Message>, m: Message)
    requires Ascending(log) && m in log
    ensures m.id <= Top(log)
  {
  }

  lemma ArriveKeeps(s: System, m: Message)
    requires ScanInv(s) && m.id > Top(s.log)
    ensures ScanInv(Step(s, Arrive(m)))
  {
    var next := Step(s, Arrive(m));
    forall o | o in s.log ensures o.id <= Top(s.log) { TopIsTop(s.log, o); }
    forall i, j | 0 <= i < j < |next.log| ensures next.log[i].id < next.log[j].id {
      assert s.log[i] in s.log;
    }
    assert Top(next.log) == m.id;
    assert forall o | o in next.log :: o in s.log || o == m;
  }

  lemma {:induction false} AddJoinsScan(db: Db, page: seq<Message>, now: Time)
    ensures AddJoins(db, page, now).cursor == db.cursor && AddJoins(db, page, now).scan == db.scan
  {
    if page != [] { AddJoinsScan(db, page[..|page| - 1], now); }
  }

  /** What an accepted page does to the scan. */
  lemma AcceptedScan(s: System)
    requires s.stage.Fetched? && Fits(s.db, s.stage.page)
    ensures var next := Step(s, IngestPage); var page := s.stage.page;
            && next.log == s.log && next.floor == s.floor && next.stage.Idle?
            && next.considered == s.considered + Seen(s.db.cursor, page)
            && (Reaches(s.db.cursor, page) ==> next.db.cursor == Head(s.db, page) && next.db.scan.None?)
            && (!Reaches(s.db.cursor, page) ==>
                  next.db.cursor == s.db.cursor && next.db.scan == Some(Scan(Head(s.db, page), page[0].id)))
  {
    AddJoinsScan(s.db, s.stage.page, s.now);
  }

  lemma PageBounds(s: System)
    requires ScanInv(s) && s.stage.Fetched?
    ensures var page := s.stage.page; var head := Head(s.db, page);
            && (forall m | m in page :: m.id <= head && page[0].id <= m.id)
            && s.db.cursor <= head && (head == s.db.cursor || head <= Top(s.log))
            && (s.db.scan.Some? ==> head == s.db.scan.value.head)
            && (s.db.scan.None? && head > s.db.cursor ==> page != [] && head == page[|page| - 1].id)
  {
    var page := s.stage.page;
    if page != [] { assert page[|page| - 1] in page; }
  }

  /** Whatever the new head reaches was considered before, or is on the page. */
  lemma HeadCovered(s: System, m: Message)
    requires ScanInv(s) && s.stage.Fetched? && m in s.log && s.db.cursor < m.id <= Head(s.db, s.stage.page)
    ensures m.id in s.considered || m in s.stage.page || (|s.stage.page| == PAGE && m.id < s.stage.page[0].id)
  {
    PageBounds(s);
    var page := s.stage.page;
    if page != [] { assert page[|page| - 1] in page; }
  }

  lemma IngestScan(s: System)
    requires ScanInv(s) && s.stage.Fetched? && Fits(s.db, s.stage.page)
    ensures ScanInv(Step(s, IngestPage))
  {
    var next := Step(s, IngestPage);
    var page := s.stage.page;
    AcceptedScan(s);
    PageBounds(s);
    if Reaches(s.db.cursor, page) {
      forall m | m in s.log && s.floor < m.id <= next.db.cursor ensures m.id in next.considered {
        if m.id > s.db.cursor {
          HeadCovered(s, m);
          ReachedAll(s.db.cursor, page, m.id);
        }
      }
      forall x | x in next.considered ensures x <= next.db.cursor {}
    } else {
      ScanContinues(s);
    }
  }

  /** On a page that reaches the floor nothing above the cursor lies below its first message. */
  lemma ReachedAll(cursor: MessageId, page: seq<Message>, id: MessageId)
    requires Reaches(cursor, page) && Ascending(page) && id > cursor
    ensures !(|page| == PAGE && id < page[0].id)
  {
    if |page| == PAGE {
      var m :| m in page && m.id <= cursor;
      assert page[0].id <= m.id;
    }
  }

  lemma ScanContinues(s: System)
    requires ScanInv(s) && s.stage.Fetched? && Fits(s.db, s.stage.page) && !Reaches(s.db.cursor, s.stage.page)
    ensures ScanInv(Step(s, IngestPage))
  {
    var next := Step(s, IngestPage);
    var page := s.stage.page;
    AcceptedScan(s);
    PageBounds(s);
    assert page[0] in page && page[|page| - 1] in page;
    var scan := next.db.scan.value;
    forall m | m in next.log && scan.before <= m.id <= scan.head ensures m.id in next.considered {
      HeadCovered(s, m);
    }
    forall x | x in next.considered && x > next.db.cursor ensures scan.before <= x <= scan.head {}
  }

  lemma FetchScan(s: System, page: seq<Message>)
    requires ScanInv(s) && Enabled(s, Fetch(page))
    ensures ScanInv(Step(s, Fetch(page)))
  {
    forall m | m in page ensures m.id <= Top(s.log) { TopIsTop(s.log, m); }
  }

  lemma StepScan(s: System, e: Event)
    requires ScanInv(s) && Enabled(s, e)
    ensures ScanInv(Step(s, e))
  {
    match e
    case Arrive(m) => ArriveKeeps(s, m);
    case Fetch(page) => FetchScan(s, page);
    case IngestPage => if Fits(s.db, s.stage.page) { IngestScan(s); }
    case _ =>
  }
}
