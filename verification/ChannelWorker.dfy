/** One sender thread's work on one claimed envelope, proved to be a path of the run. */
module ChannelWorker {
  import opened Basics
  import opened Paths
  import opened ChannelTables
  import opened Provider
  import opened ChannelOps
  import opened ChannelInvariant
  import opened ChannelRun
  import opened ChannelStore
  import opened ChannelSender
  import opened ChannelTheorems

  /** A rate-limited answer moves a gate in a step of its own, before the batch is settled. */
  ghost function AfterCooldown(s: System, b: Batch, reply: Reply, global: bool, delay: Time): System {
    s.(db := Cooled(s.db, b, reply, global, s.now, delay))
  }

  lemma CooldownLeads(wire: Wire, s: System, b: Batch, reply: Reply, global: bool, delay: Time)
    requires SysInv(s)
    ensures var t := AfterCooldown(s, b, reply, global, delay); Leads(StepBy(wire), s, t) && SysInv(t)
  {
    LeadsSelf(StepBy(wire), s);
    if StatusOf(reply) == Some(429) {
      GateLeads(wire, s, if global then GlobalGate else RouteGate(b.route), s.now + delay);
    } else {
      assert AfterCooldown(s, b, reply, global, delay) == s;
    }
  }

  lemma GateLeads(wire: Wire, s: System, gate: Gate, until: Time)
    requires SysInv(s)
    ensures var t := s.(db := Defer(s.db, gate, until)); Leads(StepBy(wire), s, t) && SysInv(t)
  {
    var t := Step(s, wire, Cooldown(gate, until));
    LeadsSelf(StepBy(wire), s);
    LeadsStep(StepBy(wire), s, s, Cooldown(gate, until), t);
    StepKeeps(s, wire, Cooldown(gate, until));
  }

  /** Settling a held flight after its POST. */
  method SettleFlight(store: JobStore, b: Batch, reply: Reply, messageId: string, global: bool,
                      retryAfter: Option<Time>, now: Time, ghost s: System)
    returns (counted: Counted, ghost t: System)
    requires store.Valid() && store.Tables() == s.db && s.now == now && SysInv(s)
    requires b.token in s.flights && s.flights[b.token] == Flight(b, Replied(reply))
    modifies store
    ensures store.Valid() && Leads(StepBy(store.wire), s, t) && t.db == store.Tables()
    ensures t.posts == s.posts && t.flights == s.flights - {b.token}
  {
    var delay := RetryDelay(reply, retryAfter, b.attempts);
    CooldownLeads(store.wire, s, b, reply, global, delay);
    ghost var cooled := AfterCooldown(s, b, reply, global, delay);
    ghost var e := Settle(b.token, messageId, delay, ReasonFor(reply, b.attempts));
    t := Step(cooled, store.wire, e);
    LeadsStep(StepBy(store.wire), s, cooled, e, t);
    StepKeeps(cooled, store.wire, e);
    counted := SettleReply(store, b, reply, messageId, global, retryAfter, now);
  }

  /** Stop, validate, find the destination, post and settle, in this order. */
  method SendBatch(store: JobStore, b: Batch, stopping: bool, destination: bool, reply: Reply, messageId: string,
                   global: bool, retryAfter: Option<Time>, now: Time, ghost s: System)
    returns (posted: bool, ghost t: System)
    requires store.Valid() && store.Tables() == s.db && s.now == now && SysInv(s)
    requires b.token in s.flights && s.flights[b.token] == Flight(b, Stage.Claimed)
    modifies store
    ensures store.Valid() && Leads(StepBy(store.wire), s, t) && t.db == store.Tables()
    ensures t.flights == s.flights - {b.token}
    ensures t.posts == if posted then s.posts + [Post(b, reply)] else s.posts
    ensures posted <==> !stopping && destination && ForeignKeys(s.db) && ValidateDispatch(s.db, b, now).1
  {
    if stopping {
      posted := false;
      t := GiveUp(store, b, now, s);
    } else {
      posted, t := CheckAndSubmit(store, b, destination, reply, messageId, global, retryAfter, now, s);
    }
  }

  /** Nothing is posted that does not pass the revalidation. */
  method CheckAndSubmit(store: JobStore, b: Batch, destination: bool, reply: Reply, messageId: string, global: bool,
                        retryAfter: Option<Time>, now: Time, ghost s: System) returns (posted: bool, ghost t: System)
    requires store.Valid() && store.Tables() == s.db && s.now == now && SysInv(s)
    requires b.token in s.flights && s.flights[b.token] == Flight(b, Stage.Claimed)
    modifies store
    ensures store.Valid() && Leads(StepBy(store.wire), s, t) && t.db == store.Tables()
    ensures t.flights == s.flights - {b.token}
    ensures t.posts == if posted then s.posts + [Post(b, reply)] else s.posts
    ensures posted <==> destination && ForeignKeys(s.db) && ValidateDispatch(s.db, b, now).1
  {
    var valid;
    valid, t := CheckFlight(store, b, now, s);
    posted := valid && destination;
    if valid {
      ghost var checked := t;
      FlightStays(s.flights, b);
      t := Submit(store, b, destination, reply, messageId, global, retryAfter, now, checked);
      LeadsJoin(StepBy(store.wire), s, checked, t);
    }
  }

  lemma FlightStays(flights: map<Token, Flight>, b: Batch)
    ensures flights[b.token := Flight(b, Validated)] - {b.token} == flights - {b.token}
  {
  }

  /** The revalidation, with the state it leads to. */
  method CheckFlight(store: JobStore, b: Batch, now: Time, ghost s: System) returns (valid: bool, ghost t: System)
    requires store.Valid() && store.Tables() == s.db && s.now == now && SysInv(s)
    requires b.token in s.flights && s.flights[b.token] == Flight(b, Stage.Claimed)
    modifies store
    ensures store.Valid() && Leads(StepBy(store.wire), s, t) && SysInv(t) && t.db == store.Tables()
    ensures t.now == now && t.posts == s.posts
    ensures valid == (ForeignKeys(s.db) && ValidateDispatch(s.db, b, now).1)
    ensures t.flights == if valid then s.flights[b.token := Flight(b, Validated)] else s.flights - {b.token}
  {
    t := Checked(store.wire, s, b);
    CheckedLeads(store.wire, s, b);
    CheckedIs(store.wire, s, b);
    valid := store.Validate(b, now);
  }

  method GiveUp(store: JobStore, b: Batch, now: Time, ghost s: System) returns (ghost t: System)
    requires store.Valid() && store.Tables() == s.db && s.now == now && SysInv(s)
    requires b.token in s.flights && s.flights[b.token] == Flight(b, Stage.Claimed)
    modifies store
    ensures store.Valid() && Leads(StepBy(store.wire), s, t) && t.db == store.Tables()
    ensures t.posts == s.posts && t.flights == s.flights - {b.token}
  {
    LeadsSelf(StepBy(store.wire), s);
    t := Step(s, store.wire, Stop(b.token));
    LeadsStep(StepBy(store.wire), s, s, Stop(b.token), t);
    StepKeeps(s, store.wire, Stop(b.token));
    var _ := store.Retry(b, now, 0.01, Other("stopping"), false, false);
  }

  /** The state behind the revalidation. */
  ghost function Checked(wire: Wire, s: System, b: Batch): System
    requires Inv(s.db) && b.token in s.flights && s.flights[b.token] == Flight(b, Stage.Claimed)
  {
    Step(s, wire, Event.Validate(b.token))
  }

  lemma CheckedLeads(wire: Wire, s: System, b: Batch)
    requires SysInv(s) && b.token in s.flights && s.flights[b.token] == Flight(b, Stage.Claimed)
    ensures Leads(StepBy(wire), s, Checked(wire, s, b)) && SysInv(Checked(wire, s, b))
  {
    LeadsSelf(StepBy(wire), s);
    LeadsStep(StepBy(wire), s, s, Event.Validate(b.token), Step(s, wire, Event.Validate(b.token)));
    StepKeeps(s, wire, Event.Validate(b.token));
  }

  lemma CheckedIs(wire: Wire, s: System, b: Batch)
    requires Inv(s.db) && b.token in s.flights && s.flights[b.token] == Flight(b, Stage.Claimed)
    ensures var t := Checked(wire, s, b);
            && t.now == s.now && t.posts == s.posts && t.db == ValidateDispatch(s.db, b, s.now).0
            && t.flights == if ValidateDispatch(s.db, b, s.now).1 then s.flights[b.token := Flight(b, Validated)]
                            else s.flights - {b.token}
  {
  }

  /** The state behind the POST. */
  lemma Posted(wire: Wire, s: System, b: Batch, reply: Reply) returns (t: System)
    requires SysInv(s) && b.token in s.flights && s.flights[b.token] == Flight(b, Validated)
    ensures Leads(StepBy(wire), s, t) && SysInv(t) && t.now == s.now && t.db == s.db
    ensures t.posts == s.posts + [Post(b, reply)] && t.flights == s.flights[b.token := Flight(b, Replied(reply))]
  {
    t := Step(s, wire, Event.Submit(b.token, reply));
    LeadsSelf(StepBy(wire), s);
    LeadsStep(StepBy(wire), s, s, Event.Submit(b.token, reply), t);
    StepKeeps(s, wire, Event.Submit(b.token, reply));
  }

  /** The state behind failing a batch that has nowhere to go. */
  lemma Stranded(wire: Wire, s: System, b: Batch) returns (t: System)
    requires SysInv(s) && b.token in s.flights && s.flights[b.token] == Flight(b, Validated)
    ensures Leads(StepBy(wire), s, t) && SysInv(t) && t.posts == s.posts && t.flights == s.flights - {b.token}
    ensures t.db == FinishBatch(s.db, b, Failed, None, Other("missing_destination"), s.now).0
  {
    t := Step(s, wire, NoDestination(b.token));
    LeadsSelf(StepBy(wire), s);
    LeadsStep(StepBy(wire), s, s, NoDestination(b.token), t);
    StepKeeps(s, wire, NoDestination(b.token));
  }

  /** Behind the revalidation: without a destination the batch fails, otherwise it is posted. */
  method Submit(store: JobStore, b: Batch, destination: bool, reply: Reply, messageId: string, global: bool,
                retryAfter: Option<Time>, now: Time, ghost s: System) returns (ghost t: System)
    requires store.Valid() && store.Tables() == s.db && s.now == now && SysInv(s)
    requires b.token in s.flights && s.flights[b.token] == Flight(b, Validated)
    modifies store
    ensures store.Valid() && Leads(StepBy(store.wire), s, t) && t.db == store.Tables()
    ensures t.flights == s.flights - {b.token}
    ensures t.posts == if destination then s.posts + [Post(b, reply)] else s.posts
  {
    if destination {
      t := PostAndSettle(store, b, reply, messageId, global, retryAfter, now, s);
    } else {
      t := Strand(store, b, now, s);
    }
  }

  method Strand(store: JobStore, b: Batch, now: Time, ghost s: System) returns (ghost t: System)
    requires store.Valid() && store.Tables() == s.db && s.now == now && SysInv(s)
    requires b.token in s.flights && s.flights[b.token] == Flight(b, Validated)
    modifies store
    ensures store.Valid() && Leads(StepBy(store.wire), s, t) && t.db == store.Tables()
    ensures t.flights == s.flights - {b.token} && t.posts == s.posts
  {
    t := Stranded(store.wire, s, b);
    var _, _ := store.Finish(b, JobState.Failed, None, Other("missing_destination"), now);
  }

  method PostAndSettle(store: JobStore, b: Batch, reply: Reply, messageId: string, global: bool,
                       retryAfter: Option<Time>, now: Time, ghost s: System) returns (ghost t: System)
    requires store.Valid() && store.Tables() == s.db && s.now == now && SysInv(s)
    requires b.token in s.flights && s.flights[b.token] == Flight(b, Validated)
    modifies store
    ensures store.Valid() && Leads(StepBy(store.wire), s, t) && t.db == store.Tables()
    ensures t.flights == s.flights - {b.token} && t.posts == s.posts + [Post(b, reply)]
  {
    ghost var sent := Posted(store.wire, s, b, reply);
    var counted;
    counted, t := SettleFlight(store, b, reply, messageId, global, retryAfter, now, sent);
    LeadsJoin(StepBy(store.wire), s, sent, t);
  }
}
