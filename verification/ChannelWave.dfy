/** How one wave of claims is formed, proved to be a path of the run. */
module ChannelWave {
  import opened Basics
  import opened Paths
  import opened ChannelTables
  import opened ChannelOps
  import opened ChannelInvariant
  import opened ChannelRun
  import opened ChannelStore
  import opened ChannelTheorems

  /** One claim of a wave: the state of the run it was made in, and the run's event. */
  datatype Slot = Slot(before: System, claim: Event)

  function RoutesOf(wave: seq<Batch>): set<Route> {
    set b | b in wave :: b.route
  }

  /** The first query of a slot: paid work only; the second slot, or the only one, is fair. */
  function PaidQuery(taken: set<Route>, slot: nat, capacity: nat): Query {
    Query(taken, Paid, 10, slot == 1 || capacity == 1, false)
  }

  function OpenQuery(taken: set<Route>): Query {
    Query(taken, Anyone, 5, false, false)
  }

  /** A claim that grants an envelope is the run's claim. */
  lemma GrantIsClaim(s: System, wire: Wire, q: Query, passes: seq<Pass>, pick: Pass, token: Token)
    requires SysInv(s) && ClaimRuns(s, q, wire, passes) && token !in s.used
    requires GateUntil(s.db.gates, GlobalGate) <= s.now
    requires Chosen(Swept(s, passes), s.now, q, wire, pick) && Known(Swept(s, passes), pick.rows)
    ensures var e := Claim(q, passes, pick, token);
            && Enabled(s, wire, e)
            && Step(s, wire, e) == ChannelRun.Granted(s.(db := Swept(s, passes)), pick, token)
  {
  }

  lemma GrantedFlight(s: System, pick: Pass, token: Token)
    requires pick.first in s.db.jobs && pick.rows != [] && Known(s.db, pick.rows)
    ensures var t, b := ChannelRun.Granted(s, pick, token), BatchOf(s.db, pick, token);
            && t.db == Lease(s.db, pick, token, s.now) && t.posts == s.posts && t.now == s.now
            && t.used == s.used + {token} && t.flights == s.flights[token := Flight(b, Stage.Claimed)]
            && b.token == token && b.route == pick.first.route
  {
  }

  lemma ChosenServes(db: Db, now: Time, q: Query, wire: Wire, pick: Pass)
    requires Chosen(db, now, q, wire, pick)
    ensures pick.first in db.jobs && pick.rows != []
    ensures pick.first.route !in q.exclude && Serves(q.audience, pick.first.route)
  {
  }

  /** The claim with its state of the run. */
  lemma Taken(s: System, wire: Wire, q: Query, passes: seq<Pass>, pick: Pass, token: Token) returns (t: System)
    requires SysInv(s) && ClaimRuns(s, q, wire, passes) && token !in s.used
    requires GateUntil(s.db.gates, GlobalGate) <= s.now
    requires Chosen(Swept(s, passes), s.now, q, wire, pick) && Known(Swept(s, passes), pick.rows)
    ensures var e := Claim(q, passes, pick, token);
            Enabled(s, wire, e) && t == Step(s, wire, e) && SysInv(t)
    ensures pick.first in Swept(s, passes).jobs && pick.rows != []
    ensures var b := BatchOf(Swept(s, passes), pick, token);
            && t.db == Lease(Swept(s, passes), pick, token, s.now) && t.posts == s.posts && t.now == s.now
            && t.used == s.used + {token} && t.flights == s.flights[token := Flight(b, Stage.Claimed)]
            && b.token == token && b.route !in q.exclude && Serves(q.audience, b.route)
  {
    ChosenServes(Swept(s, passes), s.now, q, wire, pick);
    GrantIsClaim(s, wire, q, passes, pick, token);
    GrantedFlight(s.(db := Swept(s, passes)), pick, token);
    StepKeeps(s, wire, Claim(q, passes, pick, token));
    t := Step(s, wire, Claim(q, passes, pick, token));
  }

  /** What one claim does to the run: nothing but refusals, or a new flight. */
  method ClaimNext(store: JobStore, now: Time, q: Query, token: Token, ghost s: System)
    returns (claimed: Option<Batch>, ghost e: Event, ghost t: System)
    requires store.Valid() && store.Tables() == s.db && SysInv(s) && s.now == now
    requires 1 <= q.size <= 10 && token !in s.used
    modifies store
    ensures store.Valid() && Enabled(s, store.wire, e) && t == Step(s, store.wire, e) && SysInv(t)
    ensures t.db == store.Tables() && t.posts == s.posts && t.now == now
    ensures match claimed
            case None => e.ClaimNothing? && t.flights == s.flights && t.used == s.used
            case Some(b) => e.Claim? && e.q == q && b.token == token && t.used == s.used + {token}
                            && t.flights == s.flights[token := Flight(b, Stage.Claimed)]
                            && b.route !in q.exclude && Serves(q.audience, b.route)
  {
    var result, passes, pick := store.ClaimBatch(now, q, token);
    if result.Claimed? {
      e := Claim(q, passes, pick, token);
      t := Taken(s, store.wire, q, passes, pick, token);
      claimed := Some(result.batch);
    } else {
      e := ClaimNothing(q, passes);
      StepKeeps(s, store.wire, e);
      t := Step(s, store.wire, e);
      claimed := None;
    }
  }

  // ---------------------------------------------------------------- the wave

  /** Clock readings of one slot: its paid claim, the check for due paid work, its open claim. */
  datatype Readings = Readings(paid: Time, check: Time, open: Time)

  predicate Ordered(now: Time, clock: seq<Readings>) {
    && (forall i | 0 <= i < |clock| :: now <= clock[i].paid <= clock[i].check <= clock[i].open)
    && forall i, j | 0 <= i < j < |clock| :: clock[i].open <= clock[j].paid
  }

  /** The batch was claimed outside the routes of the wave before it: as paid work, the second slot
      or the only one by fairness, or openly once no paid work was due. */
  ghost predicate FilledBy(wire: Wire, slot: Slot, before: seq<Batch>, b: Batch, capacity: nat, i: nat, check: Time) {
    var taken := RoutesOf(before);
    && slot.claim.Claim? && Inv(slot.before.db) && Enabled(slot.before, wire, slot.claim)
    && b.route !in taken && Serves(slot.claim.q.audience, b.route)
    && (slot.claim.q == PaidQuery(taken, i, capacity)
        || (slot.claim.q == OpenQuery(taken) && !DuePaid(slot.before.db, check)))
  }

  ghost predicate SlotOk(wire: Wire, slot: Slot, wave: seq<Batch>, i: nat, capacity: nat, clock: seq<Readings>)
    requires i < |wave| && i < |clock|
  {
    FilledBy(wire, slot, wave[..i], wave[i], capacity, i, clock[i].check)
  }

  /** One slot: the paid claim, then the open one if no paid work is due. */
  method FillSlot(store: JobStore, r: Readings, wave: seq<Batch>, capacity: nat, slot: nat,
                  paidToken: Token, openToken: Token, ghost s: System)
    returns (claimed: Option<Batch>, ghost made: Slot, ghost t: System)
    requires store.Valid() && store.Tables() == s.db && SysInv(s) && s.now <= r.paid <= r.check <= r.open
    requires paidToken !in s.used && openToken !in s.used && paidToken != openToken
    modifies store
    ensures store.Valid() && Leads(StepBy(store.wire), s, t) && SysInv(t) && t.db == store.Tables()
    ensures t.posts == s.posts && s.now <= t.now <= r.open && t.used <= s.used + {paidToken, openToken}
    ensures claimed.None? ==> t.flights == s.flights
    ensures claimed.Some? ==>
              var b := claimed.value;
              && b.token in {paidToken, openToken} && t.flights == s.flights[b.token := Flight(b, Stage.Claimed)]
              && FilledBy(store.wire, made, wave, b, capacity, slot, r.check)
  {
    var taken := RoutesOf(wave);
    ghost var before := ClockTo(s, store.wire, r.paid);
    ghost var e;
    claimed, e, t := ClaimNext(store, r.paid, PaidQuery(taken, slot, capacity), paidToken, before);
    LeadsStep(StepBy(store.wire), s, before, e, t);
    made := Slot(before, e);
    if claimed.None? && !store.HasDuePaid(r.check) {
      ghost var first := t;
      before := ClockTo(first, store.wire, r.open);
      LeadsJoin(StepBy(store.wire), s, first, before);
      claimed, e, t := ClaimNext(store, r.open, OpenQuery(taken), openToken, before);
      LeadsStep(StepBy(store.wire), s, before, e, t);
      made := Slot(before, e);
    }
  }

  /** Time passes. */
  lemma ClockTo(s: System, wire: Wire, later: Time) returns (t: System)
    requires SysInv(s) && s.now <= later
    ensures Leads(StepBy(wire), s, t) && SysInv(t) && t == s.(now := later)
  {
    LeadsSelf(StepBy(wire), s);
    t := Step(s, wire, Tick(later));
    StepKeeps(s, wire, Tick(later));
    LeadsStep(StepBy(wire), s, s, Tick(later), t);
  }

  lemma SlotStays(wire: Wire, slot: Slot, wave: seq<Batch>, b: Batch, i: nat, capacity: nat, clock: seq<Readings>)
    requires i < |wave| && i < |clock| && SlotOk(wire, slot, wave, i, capacity, clock)
    ensures SlotOk(wire, slot, wave + [b], i, capacity, clock)
  {
    assert (wave + [b])[..i] == wave[..i];
  }

  /** The wave's batches are claimed flights of this state. */
  ghost predicate Flying(wave: seq<Batch>, s: System) {
    forall i | 0 <= i < |wave| ::
      wave[i].token in s.flights && s.flights[wave[i].token] == Flight(wave[i], Stage.Claimed)
  }

  ghost predicate FreshTokens(tokens: seq<(Token, Token)>, from: nat, used: set<Token>) {
    && (forall i | from <= i < |tokens| :: tokens[i].0 !in used && tokens[i].1 !in used && tokens[i].0 != tokens[i].1)
    && forall i, j | from <= i < j < |tokens| :: {tokens[i].0, tokens[i].1} !! {tokens[j].0, tokens[j].1}
  }

  lemma FewerTokens(tokens: seq<(Token, Token)>, from: nat, used: set<Token>, more: set<Token>)
    requires from < |tokens| && FreshTokens(tokens, from, used)
    requires more <= used + {tokens[from].0, tokens[from].1}
    ensures FreshTokens(tokens, from + 1, more)
  {
    forall j | from + 1 <= j < |tokens| ensures tokens[j].0 !in more && tokens[j].1 !in more {
      assert {tokens[from].0, tokens[from].1} !! {tokens[j].0, tokens[j].1};
    }
  }

  /** The wave so far: its slots' claims, and its batches as flights of the run's state t. */
  ghost predicate WaveOk(wire: Wire, slots: seq<Slot>, wave: seq<Batch>, t: System, capacity: nat,
                         clock: seq<Readings>) {
    && |slots| == |wave| <= |clock| && Flying(wave, t)
    && forall i | 0 <= i < |wave| :: SlotOk(wire, slots[i], wave, i, capacity, clock)
  }

  lemma FlyingMore(wave: seq<Batch>, s: System, b: Batch, t: System)
    requires Flying(wave, s) && b.token !in s.flights && t.flights == s.flights[b.token := Flight(b, Stage.Claimed)]
    ensures Flying(wave + [b], t)
  {
  }

  lemma WaveMore(wire: Wire, slots: seq<Slot>, wave: seq<Batch>, s: System, made: Slot, b: Batch, t: System,
                 capacity: nat, clock: seq<Readings>)
    requires WaveOk(wire, slots, wave, s, capacity, clock) && |wave| < |clock|
    requires b.token !in s.flights && t.flights == s.flights[b.token := Flight(b, Stage.Claimed)]
    requires SlotOk(wire, made, wave + [b], |wave|, capacity, clock)
    ensures WaveOk(wire, slots + [made], wave + [b], t, capacity, clock)
  {
    FlyingMore(wave, s, b, t);
    forall i | 0 <= i < |wave| ensures SlotOk(wire, slots[i], wave + [b], i, capacity, clock) {
      SlotStays(wire, slots[i], wave, b, i, capacity, clock);
    }
  }

  /** Free enters a slot only when no paid work was due, and no route is in the wave twice. */
  lemma WaveIsFair(wire: Wire, slots: seq<Slot>, wave: seq<Batch>, t: System, capacity: nat, clock: seq<Readings>)
    requires WaveOk(wire, slots, wave, t, capacity, clock)
    ensures forall i | 0 <= i < |wave| && wave[i].route.Free? :: !DuePaid(slots[i].before.db, clock[i].check)
    ensures forall i, j | 0 <= i < j < |wave| :: wave[i].route != wave[j].route
  {
    forall i | 0 <= i < |wave| && wave[i].route.Free? ensures !DuePaid(slots[i].before.db, clock[i].check) {
      assert SlotOk(wire, slots[i], wave, i, capacity, clock);
    }
    forall i, j | 0 <= i < j < |wave| ensures wave[i].route != wave[j].route {
      assert SlotOk(wire, slots[j], wave, j, capacity, clock);
      assert wave[..j][i] == wave[i] && wave[i] in wave[..j];
    }
  }

  /** Claim up to capacity envelopes, one a slot, until a slot finds none or the sender stops. */
  method ClaimWave(store: JobStore, capacity: nat, clock: seq<Readings>, stops: seq<bool>,
                   tokens: seq<(Token, Token)>, ghost s: System)
    returns (wave: seq<Batch>, ghost slots: seq<Slot>, ghost t: System)
    requires store.Valid() && store.Tables() == s.db && SysInv(s)
    requires |clock| == |stops| == |tokens| == capacity && Ordered(s.now, clock) && FreshTokens(tokens, 0, s.used)
    modifies store
    ensures store.Valid() && Leads(StepBy(store.wire), s, t) && SysInv(t) && t.db == store.Tables()
    ensures t.posts == s.posts && WaveOk(store.wire, slots, wave, t, capacity, clock)
    ensures forall i | 0 <= i < |wave| && wave[i].route.Free? :: !DuePaid(slots[i].before.db, clock[i].check)
    ensures forall i, j | 0 <= i < j < |wave| :: wave[i].route != wave[j].route
  {
    wave, slots, t := [], [], s;
    var going := true;
    LeadsSelf(StepBy(store.wire), s);
    while going && |wave| < capacity && !stops[|wave|]
      invariant |wave| <= capacity && WaveHolds(store, slots, wave, capacity, clock, s, t)
      invariant going ==> WaveGoes(|wave|, clock, tokens, t)
      decreases capacity - |wave|, going
    {
      going, wave, slots, t := AddSlot(store, wave, slots, capacity, clock, tokens, s, t);
    }
    WaveIsFair(store.wire, slots, wave, t, capacity, clock);
  }

  /** The store is at the run's state t, with the wave in flight. */
  ghost predicate WaveHolds(store: JobStore, slots: seq<Slot>, wave: seq<Batch>, capacity: nat, clock: seq<Readings>,
                            s: System, t: System)
    reads store
  {
    && store.Valid() && Leads(StepBy(store.wire), s, t) && SysInv(t) && t.db == store.Tables() && t.posts == s.posts
    && WaveOk(store.wire, slots, wave, t, capacity, clock)
  }

  /** The next slot's readings and tokens are still ahead. */
  ghost predicate WaveGoes(n: nat, clock: seq<Readings>, tokens: seq<(Token, Token)>, t: System) {
    (n < |clock| ==> t.now <= clock[n].paid) && FreshTokens(tokens, n, t.used)
  }

  lemma GoesOn(n: nat, clock: seq<Readings>, tokens: seq<(Token, Token)>, s: System, t: System, now: Time)
    requires n < |clock| == |tokens| && Ordered(now, clock) && WaveGoes(n, clock, tokens, s)
    requires t.now <= clock[n].open && t.used <= s.used + {tokens[n].0, tokens[n].1}
    ensures WaveGoes(n + 1, clock, tokens, t)
  {
    FewerTokens(tokens, n, s.used, t.used);
  }

  /** One more slot; without an envelope the wave is complete. */
  method AddSlot(store: JobStore, wave: seq<Batch>, ghost slots: seq<Slot>, capacity: nat, clock: seq<Readings>,
                 tokens: seq<(Token, Token)>, ghost s: System, ghost before: System)
    returns (more: bool, longer: seq<Batch>, ghost made: seq<Slot>, ghost t: System)
    requires |clock| == |tokens| == capacity && |wave| < capacity && Ordered(s.now, clock)
    requires WaveHolds(store, slots, wave, capacity, clock, s, before) && WaveGoes(|wave|, clock, tokens, before)
    modifies store
    ensures |longer| == |wave| + if more then 1 else 0
    ensures WaveHolds(store, made, longer, capacity, clock, s, t)
    ensures more ==> WaveGoes(|longer|, clock, tokens, t)
  {
    var n := |wave|;
    var claimed;
    ghost var slot := Slot(before, Crash);
    claimed, slot, t := FillSlot(store, clock[n], wave, capacity, n, tokens[n].0, tokens[n].1, before);
    LeadsJoin(StepBy(store.wire), s, before, t);
    more := claimed.Some?;
    longer, made := wave, slots;
    if more {
      GoesOn(n, clock, tokens, before, t, s.now);
      MadeOk(store.wire, slot, wave, claimed.value, capacity, clock);
      WaveMore(store.wire, slots, wave, before, slot, claimed.value, t, capacity, clock);
      longer, made := wave + [claimed.value], slots + [slot];
    } else {
      FlyingStays(wave, before, t);
    }
  }

  lemma FlyingStays(wave: seq<Batch>, s: System, t: System)
    requires Flying(wave, s) && t.flights == s.flights
    ensures Flying(wave, t)
  {
  }

  lemma MadeOk(wire: Wire, made: Slot, wave: seq<Batch>, b: Batch, capacity: nat, clock: seq<Readings>)
    requires |wave| < |clock| && FilledBy(wire, made, wave, b, capacity, |wave|, clock[|wave|].check)
    ensures SlotOk(wire, made, wave + [b], |wave|, capacity, clock)
  {
    assert (wave + [b])[..|wave|] == wave;
  }
}
