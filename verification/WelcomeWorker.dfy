/** The welcome worker as it runs: cursor, scan, outbox and cooldowns updated in place, and one
    tick's procedures proved to be paths of the run. */
module WelcomeWorker {
  import opened Basics
  import opened Paths
  import opened Ranking
  import opened Provider
  import opened WelcomeTables
  import opened WelcomeRun
  import opened WelcomeTheorems

  ghost predicate Next(s: System, e: Event, t: System) {
    Enabled(s, e) && t == Step(s, e)
  }

  /** So what the worker leads to from a state of a run is a state of a run. */
  lemma StaysReachable(states: seq<System>, events: seq<Event>, t: System)
    requires Run(states, events) && Leads(Next, states[|events|], t)
    ensures exists longer, more :: Run(longer, more) && longer[|more|] == t
  {
    var longer, more := TraceLeads(Next, states, events, t);
    forall i | 0 <= i < |more| ensures Enabled(longer[i], more[i]) && longer[i + 1] == Step(longer[i], more[i]) {
      assert Next(longer[i], more[i], longer[i + 1]);
    }
    assert Run(longer, more);
  }

  /** One row's attempt: stopped before its POST, or answered. */
  datatype Attempt = Interrupted | Answered(reply: Reply, message: MessageId, delay: Time)

  class WelcomeWorker {
    var cursor: MessageId
    var scan: Option<Scan>
    var welcomes: map<MessageId, Welcome>
    var cooldowns: map<UserId, Time>

    function Tables(): Db
      reads this
    {
      Db(cursor, scan, welcomes, cooldowns)
    }

    constructor (activation: MessageId)
      ensures Tables() == Db(activation, None, map[], map[])
    {
      cursor, scan, welcomes, cooldowns := activation, None, map[], map[];
    }

    method Clean(now: Time)
      modifies this
      ensures Tables() == Housekeep(old(Tables()), now)
      ensures forall id | id in welcomes :: welcomes[id].state.Pending? ==> welcomes[id].created >= now - REJOIN
      ensures forall id | id in welcomes :: !welcomes[id].Live() ==> welcomes[id].created >= now - RETENTION
      ensures forall u | u in cooldowns :: cooldowns[u] > now
    {
      welcomes := map id | id in welcomes ::
        if welcomes[id].state.Pending? && welcomes[id].created < now - REJOIN
        then welcomes[id].(state := Skipped) else welcomes[id];
      welcomes := map id | id in welcomes && !(!welcomes[id].Live() && welcomes[id].created < now - RETENTION) ::
        welcomes[id];
      cooldowns := map u | u in cooldowns && cooldowns[u] > now :: cooldowns[u];
    }

    /** Bounded intake of one page: refuse it whole, or go over it and move the scan. */
    method IngestRows(page: seq<Message>, now: Time) returns (accepted: bool)
      modifies this
      ensures (Tables(), accepted) == Ingest(old(Tables()), page, now)
    {
      var head := if scan.Some? && scan.value.head > cursor then scan.value.head else cursor;
      if page != [] && page[|page| - 1].id > head { head := page[|page| - 1].id; }
      var incoming := CountIncoming(page);
      accepted := |LiveWelcomes(welcomes)| + incoming <= MAX_PENDING;
      if !accepted { return; }
      AddMessages(page, now);
      if |page| < PAGE || exists m | m in page :: m.id <= cursor {
        cursor, scan := head, None;
      } else {
        scan := Some(Scan(head, page[0].id));
      }
    }

    method CountIncoming(page: seq<Message>) returns (incoming: nat)
      ensures incoming == Incoming(cursor, page)
    {
      incoming := 0;
      for i := 0 to |page|
        invariant incoming == Incoming(cursor, page[..i])
      {
        assert page[..i + 1][..i] == page[..i];
        if page[i].id > cursor { incoming := incoming + 1; }
      }
      assert page[..|page|] == page;
    }

    method AddMessages(page: seq<Message>, now: Time)
      modifies this`welcomes, this`cooldowns
      ensures Tables() == AddJoins(old(Tables()), page, now)
    {
      ghost var start := Tables();
      for i := 0 to |page|
        invariant Tables() == AddJoins(start, page[..i], now)
      {
        assert page[..i + 1][..i] == page[..i];
        AddMessage(page[i], now);
        assert AddJoins(start, page[..i + 1], now) == AddJoin(AddJoins(start, page[..i], now), page[i], now);
      }
      assert page[..|page|] == page;
    }

    method AddMessage(m: Message, now: Time)
      modifies this`welcomes, this`cooldowns
      ensures Tables() == AddJoin(old(Tables()), m, now)
    {
      if m.id <= cursor || m.joiner.None? { return; }
      if m.joiner.value in cooldowns && cooldowns[m.joiner.value] > now { return; }
      if m.id !in welcomes {
        welcomes := welcomes[m.id := Welcome(m.joiner.value, Pending, now, None, now, None)];
        cooldowns := cooldowns[m.joiner.value := now + REJOIN];
      }
    }

    method SettleWelcome(id: MessageId, state: State, message: Option<MessageId>)
      modifies this`welcomes
      ensures Tables() == SettleRow(old(Tables()), id, state, message)
    {
      if id in welcomes { welcomes := welcomes[id := welcomes[id].(state := state, message := message)]; }
    }

    /** Read a page of the log and take it in; the log may grow in between. */
    method Collect(page: seq<Message>, arrived: seq<Message>, now: Time, ghost s: System)
      returns (accepted: bool, ghost t: System)
      requires s.db == Tables() && s.now == now && Enabled(s, Fetch(page))
      requires forall i | 0 <= i < |arrived| ::
                 arrived[i].id > Top(s.log) && (i > 0 ==> arrived[i].id > arrived[i - 1].id)
      modifies this
      ensures Leads(Next, s, t) && t.db == Tables() && t.stage.Idle? && t.log == s.log + arrived && t.posts == s.posts
      ensures accepted == Fits(s.db, page)
    {
      LeadsSelf(Next, s);
      t := Step(s, Fetch(page));
      LeadsStep(Next, s, s, Fetch(page), t);
      ghost var i := 0;
      while i < |arrived|
        invariant 0 <= i <= |arrived| && Leads(Next, s, t)
        invariant t == s.(stage := Fetched(page, Top(s.log)), log := s.log + arrived[..i])
      {
        assert i > 0 ==> (s.log + arrived[..i])[|s.log| + i - 1] == arrived[i - 1];
        LeadsStep(Next, s, t, Arrive(arrived[i]), Step(t, Arrive(arrived[i])));
        t := Step(t, Arrive(arrived[i]));
        assert arrived[..i] + [arrived[i]] == arrived[..i + 1];
        i := i + 1;
      }
      assert arrived[..|arrived|] == arrived;
      LeadsStep(Next, s, t, IngestPage, Step(t, IngestPage));
      t := Step(t, IngestPage);
      accepted := IngestRows(page, now);
    }

    /** A row left in sending by an earlier tick is matched in the history, or given to review. */
    method ReconcileRow(id: MessageId, found: Option<MessageId>, ghost s: System) returns (ghost t: System)
      requires s.db == Tables() && Enabled(s, Reconcile(id, found))
      modifies this`welcomes
      ensures Leads(Next, s, t) && t == s.(db := Tables())
      ensures forall o | o in old(welcomes) && o != id :: o in welcomes && welcomes[o] == old(welcomes)[o]
      ensures id in welcomes && welcomes[id].message == found
      ensures welcomes[id].state == if found.Some? then Sent else Review
    {
      LeadsSelf(Next, s);
      t := Step(s, Reconcile(id, found));
      LeadsStep(Next, s, s, Reconcile(id, found), t);
      if found.Some? { SettleWelcome(id, Sent, found); } else { SettleWelcome(id, Review, None); }
    }

    method ConcludeRow(id: MessageId, reply: Reply, message: MessageId, delay: Time, now: Time)
      modifies this`welcomes
      ensures Tables() == Concluded(old(Tables()), id, reply, message, delay, now)
    {
      match VerdictFor(reply) {
        case Deliver => SettleWelcome(id, Sent, Some(message));
        case Defer =>
          if id in welcomes {
            welcomes := welcomes[id := welcomes[id].(state := Pending, nextAttempt := now + Max(1.0, delay))];
          }
        case Reject => SettleWelcome(id, Failed, None);
        case Hold =>
      }
    }

    /** Commit the uncertain state, then post, then settle; an interruption gives the row back. */
    method SendRow(id: MessageId, attempt: Attempt, now: Time, ghost s: System) returns (more: bool, ghost t: System)
      requires s.db == Tables() && s.now == now && s.stage.Idle?
      modifies this`welcomes
      ensures Leads(Next, s, t) && t.db == Tables() && t.now == now && t.stage.Idle? && s.posts <= t.posts
      ensures |t.posts| == |s.posts| + if MayClaim(s.db, id) && attempt.Answered? then 1 else 0
      ensures more <==> !MayClaim(s.db, id) || (attempt.Answered? && attempt.reply == Created(true))
      ensures forall o | o in old(welcomes) && o != id :: o in welcomes && welcomes[o] == old(welcomes)[o]
    {
      LeadsSelf(Next, s);
      t := s;
      more := true;
      if id !in welcomes || !welcomes[id].state.Pending? { return; }
      welcomes := welcomes[id := welcomes[id].(state := Sending, attempted := Some(now))];
      ghost var claimed := Step(s, Claim(id));
      LeadsStep(Next, s, s, Claim(id), claimed);
      more, t := FinishRow(id, attempt, now, claimed);
      LeadsJoin(Next, s, claimed, t);
    }

    /** What follows the durable claim. */
    method FinishRow(id: MessageId, attempt: Attempt, now: Time, ghost s: System) returns (more: bool, ghost t: System)
      requires s.db == Tables() && s.now == now && s.stage == Claimed(id)
      modifies this`welcomes
      ensures Leads(Next, s, t) && t.db == Tables() && t.now == now && t.stage.Idle? && s.posts <= t.posts
      ensures |t.posts| == |s.posts| + if attempt.Answered? then 1 else 0
      ensures more <==> attempt.Answered? && attempt.reply == Created(true)
      ensures forall o | o in old(welcomes) && o != id :: o in welcomes && welcomes[o] == old(welcomes)[o]
    {
      LeadsSelf(Next, s);
      if attempt.Interrupted? {
        SettleWelcome(id, Pending, None);
        t := Step(s, GiveBack);
        LeadsStep(Next, s, s, GiveBack, t);
        more := false;
        return;
      }
      ghost var replied := Step(s, Submit(attempt.reply));
      LeadsStep(Next, s, s, Submit(attempt.reply), replied);
      ConcludeRow(id, attempt.reply, attempt.message, attempt.delay, now);
      t := Step(replied, Conclude(attempt.message, attempt.delay));
      LeadsStep(Next, s, replied, Conclude(attempt.message, attempt.delay), t);
      more := attempt.reply == Created(true);
    }

    /** At most five due rows, oldest first; the first failure ends the batch. */
    method SendPending(history: map<MessageId, MessageId>, attempts: seq<Attempt>, now: Time, ghost s: System)
      returns (ghost t: System)
      requires s.db == Tables() && s.now == now && s.stage.Idle? && |attempts| >= BATCH
      modifies this`welcomes
      ensures Leads(Next, s, t) && t.db == Tables() && t.stage.Idle? && |s.posts| <= |t.posts| <= |s.posts| + 5
    {
      LeadsSelf(Next, s);
      t := s;
      var rows := TopRows(Due(Tables(), now), BATCH);
      ghost var start := welcomes;
      var i := 0;
      while i < |rows|
        invariant 0 <= i <= |rows| && Leads(Next, s, t) && t.db == Tables() && t.now == now && t.stage.Idle?
        invariant |s.posts| <= |t.posts| <= |s.posts| + i
        invariant forall k | i <= k < |rows| ::
                    rows[k] in welcomes && rows[k] in start && welcomes[rows[k]] == start[rows[k]]
      {
        var id := rows[i];
        ghost var before := t;
        if welcomes[id].state.Sending? {
          t := ReconcileRow(id, if id in history then Some(history[id]) else None, before);
        } else {
          var more;
          more, t := SendRow(id, attempts[i], now, before);
          if !more {
            LeadsJoin(Next, s, before, t);
            return;
          }
        }
        LeadsJoin(Next, s, before, t);
        i := i + 1;
      }
    }
  }
}
