/** What holds of every run of the welcome worker. */
module WelcomeTheorems {
  import opened Basics
  import opened Ranking
  import opened Provider
  import opened WelcomeTables
  import opened WelcomeRun

  // ---------------------------------------------------------------- the queue bound

  lemma {:induction false} AddJoinsSize(db: Db, page: seq<Message>, now: Time)
    ensures |LiveWelcomes(AddJoins(db, page, now).welcomes)| <= |LiveWelcomes(db.welcomes)| + Incoming(db.cursor, page)
  {
    if page != [] {
      var n := |page| - 1;
      AddJoinsSize(db, page[..n], now);
      AddJoinsScan(db, page[..n], now);
      var before := AddJoins(db, page[..n], now);
      var after := AddJoins(db, page, now);
      assert LiveWelcomes(after.welcomes) <= LiveWelcomes(before.welcomes) + {page[n].id};
      if Greets(before, page[n], now) {
        SubsetSize(LiveWelcomes(after.welcomes), LiveWelcomes(before.welcomes) + {page[n].id});
      } else {
        assert after == before;
      }
    }
  }

  /** The worker's row is the one it marked as sending. */
  ghost predicate HolderOk(s: System) {
    && (s.stage.Claimed? ==> s.stage.id in s.db.welcomes && s.db.welcomes[s.stage.id].state.Sending?)
    && (s.stage.Replied? ==> s.stage.id in s.db.welcomes && s.db.welcomes[s.stage.id].state.Sending?)
  }

  ghost predicate QueueOk(s: System) {
    HolderOk(s) && |LiveWelcomes(s.db.welcomes)| <= MAX_PENDING
  }

  lemma LiveShrinks(a: map<MessageId, Welcome>, b: map<MessageId, Welcome>)
    requires forall id | id in b && b[id].Live() :: id in a && a[id].Live()
    ensures |LiveWelcomes(b)| <= |LiveWelcomes(a)|
  {
    SubsetSize(LiveWelcomes(b), LiveWelcomes(a));
  }

  lemma StepQueue(s: System, e: Event)
    requires QueueOk(s) && Enabled(s, e)
    ensures QueueOk(Step(s, e))
  {
    var next := Step(s, e);
    if e.IngestPage? {
      if Fits(s.db, s.stage.page) {
        AddJoinsSize(s.db, s.stage.page, s.now);
        assert next.db.welcomes == AddJoins(s.db, s.stage.page, s.now).welcomes;
      }
    } else {
      LiveShrinks(s.db.welcomes, next.db.welcomes);
    }
  }

  // ---------------------------------------------------------------- at most one greeting POST

  ghost predicate MayBeAccepted(p: Post) {
    Effect(p.reply).MayHaveBeenAccepted()
  }

  ghost predicate NoStake(s: System, id: MessageId) {
    forall p | p in s.posts && p.id == id :: !MayBeAccepted(p)
  }

  ghost predicate OutboxOk(s: System) {
    && HolderOk(s)
    && (forall id | id in s.db.welcomes :: id in s.considered)
    && (forall p | p in s.posts :: p.id in s.considered)
    && (forall id | id in s.db.welcomes && s.db.welcomes[id].state.Pending? :: NoStake(s, id))
    && (s.stage.Claimed? ==> NoStake(s, s.stage.id))
    && (s.stage.Replied? && VerdictFor(s.stage.reply).Defer? ==> NoStake(s, s.stage.id))
    && (forall i, j | 0 <= i < j < |s.posts| && MayBeAccepted(s.posts[i]) && MayBeAccepted(s.posts[j]) ::
          s.posts[i].id != s.posts[j].id)
  }

  /** Only a refused POST is ever deferred for another try. */
  lemma DefersOnlyRefusals(reply: Reply)
    ensures VerdictFor(reply).Defer? ==> !Effect(reply).MayHaveBeenAccepted()
    ensures VerdictFor(reply).Reject? ==> !Effect(reply).MayHaveBeenAccepted()
    ensures VerdictFor(reply).Deliver? ==> Effect(reply).Accepted?
  {
  }

  lemma {:induction false} AddJoinsRows(db: Db, page: seq<Message>, now: Time)
    ensures var after := AddJoins(db, page, now);
            && (forall id | id in db.welcomes :: id in after.welcomes && after.welcomes[id] == db.welcomes[id])
            && (forall id | id in after.welcomes :: id in db.welcomes || id in Seen(db.cursor, page))
  {
    if page != [] {
      var n := |page| - 1;
      AddJoinsRows(db, page[..n], now);
      AddJoinsScan(db, page[..n], now);
      assert forall m | m in page[..n] :: m in page;
      assert page[n] in page;
      forall id | id in Seen(db.cursor, page[..n]) ensures id in Seen(db.cursor, page) {}
    }
  }

  /** No message is ever considered twice. */
  lemma PageIsNew(s: System)
    requires ScanInv(s) && s.stage.Fetched?
    ensures Seen(s.db.cursor, s.stage.page) !! s.considered
  {
  }

  lemma IngestOutbox(s: System)
    requires ScanInv(s) && OutboxOk(s) && s.stage.Fetched? && Fits(s.db, s.stage.page)
    ensures OutboxOk(Step(s, IngestPage))
  {
    var next := Step(s, IngestPage);
    PageIsNew(s);
    AddJoinsRows(s.db, s.stage.page, s.now);
    assert next.db.welcomes == AddJoins(s.db, s.stage.page, s.now).welcomes;
    forall id | id in next.db.welcomes && next.db.welcomes[id].state.Pending? ensures NoStake(next, id) {
      if id in s.db.welcomes { assert NoStake(s, id); }
    }
  }

  lemma SubmitOutbox(s: System, reply: Reply)
    requires OutboxOk(s) && s.stage.Claimed?
    ensures OutboxOk(Step(s, Submit(reply)))
  {
    var next := Step(s, Submit(reply));
    var p := Post(s.stage.id, reply);
    DefersOnlyRefusals(reply);
    assert forall q | q in next.posts :: q in s.posts || q == p;
    forall id | id in next.db.welcomes && next.db.welcomes[id].state.Pending? ensures NoStake(next, id) {
      assert NoStake(s, id) && id != s.stage.id;
    }
    forall i, j | 0 <= i < j < |next.posts| && MayBeAccepted(next.posts[i]) && MayBeAccepted(next.posts[j])
      ensures next.posts[i].id != next.posts[j].id
    {
      assert next.posts[i] == s.posts[i] && s.posts[i] in s.posts;
    }
  }

  lemma StepOutbox(s: System, e: Event)
    requires ScanInv(s) && OutboxOk(s) && Enabled(s, e)
    ensures OutboxOk(Step(s, e)) && s.posts <= Step(s, e).posts
  {
    match e
    case IngestPage => if Fits(s.db, s.stage.page) { IngestOutbox(s); }
    case Submit(reply) => SubmitOutbox(s, reply);
    case Reconcile(_, _) => SettleOutbox(s, e);
    case Claim(_) => SettleOutbox(s, e);
    case GiveBack => SettleOutbox(s, e);
    case Conclude(_, _) => SettleOutbox(s, e);
    case _ => QuietOutbox(s, e);
  }

  /** Events that post nothing and settle no row. */
  lemma QuietOutbox(s: System, e: Event)
    requires OutboxOk(s) && Enabled(s, e) && (e.Tick? || e.Arrive? || e.Housekeeping? || e.Fetch? || e.Crash?)
    ensures OutboxOk(Step(s, e)) && s.posts <= Step(s, e).posts
  {
    SameStakes(s, Step(s, e));
  }

  /** One row's claim or settlement. */
  lemma SettleOutbox(s: System, e: Event)
    requires OutboxOk(s) && Enabled(s, e) && (e.Reconcile? || e.Claim? || e.GiveBack? || e.Conclude?)
    ensures OutboxOk(Step(s, e)) && s.posts <= Step(s, e).posts
  {
    SameStakes(s, Step(s, e));
  }

  lemma SameStakes(s: System, next: System)
    requires next.posts == s.posts
    ensures forall id | NoStake(s, id) :: NoStake(next, id)
  {
  }

  // ---------------------------------------------------------------- rejoin spacing

  ghost predicate SpacedGreetings(gs: seq<Greeting>) {
    forall i, j | 0 <= i < j < |gs| && gs[i].user == gs[j].user :: gs[i].at + REJOIN <= gs[j].at
  }

  ghost predicate Cooled(cooldowns: map<UserId, Time>, gs: seq<Greeting>, now: Time) {
    forall g | g in gs ::
      g.at <= now && (g.at + REJOIN > now ==> g.user in cooldowns && cooldowns[g.user] >= g.at + REJOIN)
  }

  lemma OneMore(gs: seq<Greeting>, g: Greeting, cooldowns: map<UserId, Time>, now: Time)
    requires SpacedGreetings(gs) && Cooled(cooldowns, gs, now) && g.at == now && !Cooling(cooldowns, g.user, now)
    ensures SpacedGreetings(gs + [g]) && Cooled(cooldowns[g.user := now + REJOIN], gs + [g], now)
  {
    forall i | 0 <= i < |gs| && gs[i].user == g.user ensures gs[i].at + REJOIN <= now {
      assert gs[i] in gs;
    }
  }

  lemma {:induction false} MadeKeeps(db: Db, gs: seq<Greeting>, page: seq<Message>, now: Time)
    requires SpacedGreetings(gs) && Cooled(db.cooldowns, gs, now)
    ensures SpacedGreetings(gs + Made(db, page, now))
    ensures Cooled(AddJoins(db, page, now).cooldowns, gs + Made(db, page, now), now)
    decreases |page|
  {
    if page == [] {
      assert gs + Made(db, page, now) == gs;
    } else {
      var n := |page| - 1;
      MadeKeeps(db, gs, page[..n], now);
      var before := AddJoins(db, page[..n], now);
      var sofar := gs + Made(db, page[..n], now);
      if Greets(before, page[n], now) {
        var g := Greeting(page[n].id, page[n].joiner.value, now);
        OneMore(sofar, g, before.cooldowns, now);
        assert gs + Made(db, page, now) == sofar + [g];
      } else {
        assert gs + Made(db, page, now) == sofar;
      }
    }
  }

  ghost predicate SpacingOk(s: System) {
    SpacedGreetings(s.greetings) && Cooled(s.db.cooldowns, s.greetings, s.now)
  }

  lemma StepSpacing(s: System, e: Event)
    requires SpacingOk(s) && Enabled(s, e)
    ensures SpacingOk(Step(s, e))
  {
    if e.IngestPage? && Fits(s.db, s.stage.page) {
      MadeKeeps(s.db, s.greetings, s.stage.page, s.now);
      assert Step(s, e).db.cooldowns == AddJoins(s.db, s.stage.page, s.now).cooldowns;
    } else {
      assert Step(s, e).greetings == s.greetings;
    }
  }

  // ---------------------------------------------------------------- runs

  ghost predicate Run(states: seq<System>, events: seq<Event>) {
    && |states| == |events| + 1
    && Start(states[0])
    && forall i | 0 <= i < |events| :: Enabled(states[i], events[i]) && states[i + 1] == Step(states[i], events[i])
  }

  lemma {:induction false} RunKeeps(states: seq<System>, events: seq<Event>, i: nat)
    requires Run(states, events) && i < |states|
    ensures ScanInv(states[i]) && QueueOk(states[i]) && OutboxOk(states[i]) && SpacingOk(states[i])
  {
    if i == 0 {
      assert LiveWelcomes(states[0].db.welcomes) == {};
    } else {
      RunKeeps(states, events, i - 1);
      StepScan(states[i - 1], events[i - 1]);
      StepQueue(states[i - 1], events[i - 1]);
      StepOutbox(states[i - 1], events[i - 1]);
      StepSpacing(states[i - 1], events[i - 1]);
    }
  }

  /** The cursor never passes an unconsidered message, the scan leaves no gap behind it, and the
      outbox never holds more than a thousand live greetings. */
  lemma NothingPassedOver(states: seq<System>, events: seq<Event>, n: nat, m: Message)
    requires Run(states, events) && n < |states| && m in states[n].log
    ensures states[n].floor < m.id <= states[n].db.cursor ==> m.id in states[n].considered
    ensures states[n].db.scan.Some? && states[n].db.scan.value.before <= m.id <= states[n].db.scan.value.head
            ==> m.id in states[n].considered
    ensures |LiveWelcomes(states[n].db.welcomes)| <= 1000
  {
    RunKeeps(states, events, n);
  }

  lemma StepForward(s: System, e: Event)
    requires ScanInv(s) && Enabled(s, e)
    ensures s.db.cursor <= Step(s, e).db.cursor && s.considered <= Step(s, e).considered
  {
    if e.IngestPage? && Fits(s.db, s.stage.page) { AcceptedScan(s); }
  }

  ghost predicate Forward(a: System, b: System) {
    a.db.cursor <= b.db.cursor && a.considered <= b.considered
  }

  lemma {:induction false} ForwardChain(states: seq<System>, n: nat, m: nat)
    requires forall k | 0 <= k < |states| - 1 :: Forward(states[k], states[k + 1])
    requires n <= m < |states|
    ensures Forward(states[n], states[m])
    decreases m - n
  {
    if n < m {
      ForwardChain(states, n, m - 1);
      assert Forward(states[m - 1], states[m - 1 + 1]);
    }
  }

  lemma RunForward(states: seq<System>, events: seq<Event>, k: nat)
    requires Run(states, events) && k < |events|
    ensures Forward(states[k], states[k + 1])
  {
    RunKeeps(states, events, k);
    StepForward(states[k], events[k]);
  }

  /** The cursor only moves forward, and what was considered stays considered. */
  lemma CursorForward(states: seq<System>, events: seq<Event>, n: nat, m: nat)
    requires Run(states, events) && n <= m < |states|
    ensures states[n].db.cursor <= states[m].db.cursor && states[n].considered <= states[m].considered
  {
    forall k | 0 <= k < |states| - 1 ensures Forward(states[k], states[k + 1]) {
      RunForward(states, events, k);
    }
    ForwardChain(states, n, m);
  }

  /** Whatever the cursor moves over between two moments has been considered by the second. */
  lemma CursorMovesOverConsidered(states: seq<System>, events: seq<Event>, n: nat, k: nat, m: Message)
    requires Run(states, events) && n <= k < |states| && m in states[k].log
    requires states[n].db.cursor < m.id <= states[k].db.cursor
    ensures m.id in states[k].considered
  {
    RunKeeps(states, events, n);
    RunKeeps(states, events, k);
    FloorStays(states, events, n);
    FloorStays(states, events, k);
  }

  lemma {:induction false} FloorStays(states: seq<System>, events: seq<Event>, n: nat)
    requires Run(states, events) && n < |states|
    ensures states[n].floor == states[0].floor
  {
    if n > 0 { FloorStays(states, events, n - 1); }
  }

  /** A considered join is in the outbox, or its member was greeted within the last day. */
  lemma {:induction false} ConsideredJoin(db: Db, page: seq<Message>, now: Time, k: nat)
    requires k < |page| && page[k].id > db.cursor && page[k].joiner.Some?
    ensures page[k].id in AddJoins(db, page, now).welcomes
            || Cooling(AddJoins(db, page[..k], now).cooldowns, page[k].joiner.value, now)
    decreases |page|
  {
    var n := |page| - 1;
    if k == n {
      AddJoinsScan(db, page[..n], now);
    } else {
      assert page[..n][..k] == page[..k];
      ConsideredJoin(db, page[..n], now, k);
    }
  }

  /** At most one greeting POST per join event may have been accepted, over any run. */
  lemma AtMostOneGreeting(states: seq<System>, events: seq<Event>, n: nat, i: nat, j: nat)
    requires Run(states, events) && n < |states| && i < j < |states[n].posts|
    requires MayBeAccepted(states[n].posts[i]) && MayBeAccepted(states[n].posts[j])
    ensures states[n].posts[i].id != states[n].posts[j].id
  {
    RunKeeps(states, events, n);
  }

  // ---------------------------------------------------------------- the history of greetings

  /** Every row of the outbox is on record with its member and time. */
  ghost predicate OnRecord(db: Db, gs: seq<Greeting>) {
    forall id | id in db.welcomes :: Greeting(id, db.welcomes[id].user, db.welcomes[id].created) in gs
  }

  lemma {:induction false} MadeOnRecord(db: Db, page: seq<Message>, now: Time, gs: seq<Greeting>)
    requires OnRecord(db, gs)
    ensures OnRecord(AddJoins(db, page, now), gs + Made(db, page, now))
    decreases |page|
  {
    if page == [] {
      assert gs + [] == gs;
    } else {
      var n := |page| - 1;
      MadeOnRecord(db, page[..n], now, gs);
      JoinOnRecord(AddJoins(db, page[..n], now), page[n], now, gs + Made(db, page[..n], now));
      assert gs + Made(db, page, now)
             == gs + Made(db, page[..n], now)
                + if Greets(AddJoins(db, page[..n], now), page[n], now)
                  then [Greeting(page[n].id, page[n].joiner.value, now)] else [];
    }
  }

  lemma JoinOnRecord(db: Db, m: Message, now: Time, gs: seq<Greeting>)
    requires OnRecord(db, gs)
    ensures OnRecord(AddJoin(db, m, now),
                     gs + if Greets(db, m, now) then [Greeting(m.id, m.joiner.value, now)] else [])
  {
  }

  /** Changes of rows keep their member and time. */
  ghost predicate SameJoins(a: Db, b: Db) {
    forall id | id in b.welcomes ::
      id in a.welcomes && b.welcomes[id].user == a.welcomes[id].user && b.welcomes[id].created == a.welcomes[id].created
  }

  lemma StepOnRecord(s: System, e: Event)
    requires Enabled(s, e) && OnRecord(s.db, s.greetings)
    ensures OnRecord(Step(s, e).db, Step(s, e).greetings)
  {
    if e.IngestPage? {
      MadeOnRecord(s.db, s.stage.page, s.now, s.greetings);
    } else {
      assert SameJoins(s.db, Step(s, e).db);
    }
  }

  /** In every run the history the spacing speaks of holds every greeting that was ever queued. */
  lemma {:induction false} GreetingsOnRecord(states: seq<System>, events: seq<Event>, n: nat)
    requires Run(states, events) && n < |states|
    ensures OnRecord(states[n].db, states[n].greetings)
  {
    if n > 0 {
      GreetingsOnRecord(states, events, n - 1);
      StepOnRecord(states[n - 1], events[n - 1]);
    }
  }

  /** A member's greetings are created at least a day apart. */
  lemma GreetingsADayApart(states: seq<System>, events: seq<Event>, n: nat, i: nat, j: nat)
    requires Run(states, events) && n < |states| && i < j < |states[n].greetings|
    requires states[n].greetings[i].user == states[n].greetings[j].user
    ensures states[n].greetings[i].at + 86400.0 <= states[n].greetings[j].at
  {
    RunKeeps(states, events, n);
  }

  /** The history the theorems speak of holds every POST: a submission appends its greeting with the
      reply, and nothing else writes it. */
  lemma PostsTold(s: System, e: Event)
    requires Enabled(s, e)
    ensures var next := Step(s, e);
            if e.Submit? then |next.posts| == |s.posts| + 1 && next.posts[..|s.posts|] == s.posts
                              && next.posts[|s.posts|] == Post(s.stage.id, e.reply)
            else next.posts == s.posts
  {
  }
}
