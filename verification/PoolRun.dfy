/** Every interleaving of reservations, responses and close. */
module PoolRun {
  import opened Basics
  import opened Ranking
  import opened PoolTables

  /** flights: the connection each request in flight uses; history: every start ever. */
  datatype System = System(pool: Pool, now: Time, flights: map<Key, Conn>, nextConn: Conn, history: seq<Time>)

  const START := System(EMPTY, 0.0, map[], 0, [])

  datatype Event =
    | Tick(later: Time)
    | Request(key: Key)
    | Headers(key: Key, bucket: Option<string>, limited: bool, exhausted: Option<Time>)
    | LimitBody(key: Key, retryAfter: Time, global: bool)
    | Done(key: Key, reusable: bool)
    | Shut

  predicate Enabled(s: System, e: Event) {
    match e
    case Tick(later) => s.now <= later
    case Headers(key, _, _, _) => key in s.flights
    case LimitBody(key, _, _) => key in s.flights
    case Done(key, _) => key in s.flights
    case _ => true
  }

  function Admitted(s: System, key: Key): System {
    var opening := s.pool.idle == [];
    s.(pool := Reserve(s.pool, key, s.now), history := s.history + [s.now],
       flights := s.flights[key := if opening then s.nextConn else s.pool.idle[|s.pool.idle| - 1]],
       nextConn := if opening then s.nextConn + 1 else s.nextConn)
  }

  /** A refused request changes nothing. */
  function Step(s: System, e: Event): System
    requires Enabled(s, e)
  {
    match e
    case Tick(later) => s.(now := later)
    case Request(key) =>
      if MayReserve(s.pool, key, s.now) then Admitted(s, key) else s
    case Headers(key, bucket, limited, exhausted) =>
      s.(pool := ReadHeaders(s.pool, key, bucket, limited, exhausted, s.now))
    case LimitBody(key, retryAfter, global) => s.(pool := ReadLimit(s.pool, key, retryAfter, global, s.now))
    case Done(key, reusable) =>
      s.(pool := Finish(s.pool, key, s.flights[key], reusable), flights := s.flights - {key})
    case Shut => s.(pool := Close(s.pool))
  }

  // ---------------------------------------------------------------- admission

  /** A request is admitted exactly when every gate is open. */
  lemma AdmittedIff(p: Pool, key: Key, now: Time)
    ensures WaitUntil(p, key, now).0 == 0.0 <==>
              && CooldownUntil(p, key) <= now
              && |Recent(p.started, now)| < GLOBAL_REQUESTS
              && p.pending == {} && !Contended(p, key) && !NoSlot(p)
  {
    var recent := Recent(p.started, now);
    if |recent| >= GLOBAL_REQUESTS {
      RecentIsRecent(p.started, now, |recent| - GLOBAL_REQUESTS);
    }
  }

  lemma {:induction false} RecentIsRecent(started: seq<Time>, now: Time, k: nat)
    requires k < |Recent(started, now)|
    ensures Recent(started, now)[k] > now - GLOBAL_WINDOW
    decreases |started|
  {
    var n := |started| - 1;
    if k < |Recent(started[..n], now)| { RecentIsRecent(started[..n], now, k); }
  }

  // ---------------------------------------------------------------- the sliding window

  ghost predicate Sorted(s: seq<Time>) {
    forall i, j | 0 <= i < j < |s| :: s[i] <= s[j]
  }

  /** Of a sorted deque, the recent starts are its tail. */
  lemma {:induction false} RecentIsTail(started: seq<Time>, now: Time)
    requires Sorted(started)
    ensures var n := |started| - |Recent(started, now)|;
            Recent(started, now) == started[n..] && forall i | 0 <= i < n :: started[i] <= now - GLOBAL_WINDOW
    decreases |started|
  {
    if started != [] {
      var n := |started| - 1;
      RecentIsTail(started[..n], now);
      if started[n] > now - GLOBAL_WINDOW {
        assert started[..n] + [started[n]] == started;
      } else {
        assert forall i | 0 <= i <= n :: started[i] <= started[n];
        forall i | 0 <= i < n ensures started[i] <= now - GLOBAL_WINDOW {}
        NoneRecent(started[..n], now);
      }
    }
  }

  lemma {:induction false} NoneRecent(started: seq<Time>, now: Time)
    requires forall i | 0 <= i < |started| :: started[i] <= now - GLOBAL_WINDOW
    ensures Recent(started, now) == []
    decreases |started|
  {
    if started != [] { NoneRecent(started[..|started| - 1], now); }
  }

  lemma {:induction false} TrimIsTail(started: seq<Time>, now: Time)
    requires Sorted(started)
    ensures |Trim(started, now)| <= |started|
    ensures var n := |started| - |Trim(started, now)|;
            Trim(started, now) == started[n..] && forall i | 0 <= i < n :: started[i] <= now - GLOBAL_WINDOW
    decreases |started|
  {
    if started != [] && started[0] <= now - GLOBAL_WINDOW {
      TrimIsTail(started[1..], now);
      var n := |started| - |Trim(started, now)|;
      assert started[1..][n - 1..] == started[n..];
      forall i | 0 <= i < n ensures started[i] <= now - GLOBAL_WINDOW {
        if i > 0 { assert started[1..][i - 1] == started[i]; }
      }
    }
  }

  /** Any 26 consecutive starts span at least the window. */
  ghost predicate Spaced(history: seq<Time>) {
    forall i | 0 <= i < |history| - GLOBAL_REQUESTS :: history[i] + GLOBAL_WINDOW <= history[i + GLOBAL_REQUESTS]
  }

  /** The deque is the tail of the history that could still be inside the window. */
  ghost predicate Remembers(started: seq<Time>, history: seq<Time>, now: Time) {
    && Sorted(history) && (forall t | t in history :: t <= now)
    && |started| <= |history| && started == history[|history| - |started|..]
    && (forall i | 0 <= i < |history| - |started| :: history[i] <= now - GLOBAL_WINDOW)
  }

  lemma TrimRemembers(started: seq<Time>, history: seq<Time>, now: Time)
    requires Remembers(started, history, now)
    ensures Remembers(Trim(started, now), history, now)
  {
    var cut := |history| - |started|;
    SuffixSorted(history, cut);
    TrimIsTail(started, now);
    var n := |started| - |Trim(started, now)|;
    assert history[cut..][n..] == history[cut + n..];
    forall i | 0 <= i < cut + n ensures history[i] <= now - GLOBAL_WINDOW {
      if i >= cut { assert started[i - cut] == history[i]; }
    }
  }

  lemma AppendRemembers(started: seq<Time>, history: seq<Time>, now: Time)
    requires Remembers(started, history, now)
    ensures Remembers(started + [now], history + [now], now)
  {
    var cut := |history| - |started|;
    assert (history + [now])[cut..] == history[cut..] + [now];
    forall i, j | 0 <= i < j < |history| + 1 ensures (history + [now])[i] <= (history + [now])[j] {
      assert history[i] in history;
    }
  }

  lemma SuffixSorted(history: seq<Time>, cut: nat)
    requires Sorted(history) && cut <= |history|
    ensures Sorted(history[cut..])
  {
    var tail := history[cut..];
    forall i, j | 0 <= i < j < |tail| ensures tail[i] <= tail[j] {
      assert tail[i] == history[cut + i] && tail[j] == history[cut + j];
    }
  }

  lemma StartSpaced(started: seq<Time>, history: seq<Time>, now: Time)
    requires Remembers(started, history, now) && Spaced(history)
    requires |Recent(started, now)| < GLOBAL_REQUESTS
    ensures Spaced(history + [now])
  {
    var cut := |history| - |started|;
    SuffixSorted(history, cut);
    RecentIsTail(started, now);
    var i := |history| - GLOBAL_REQUESTS;
    if 0 <= i && cut <= i { assert started[i - cut] == history[i]; }
  }

  /** The starts inside one half-open window. */
  function Inside(history: seq<Time>, from: Time): set<nat> {
    set i | 0 <= i < |history| && from <= history[i] < from + GLOBAL_WINDOW
  }

  lemma SpacedApart(history: seq<Time>, i: nat, j: nat)
    requires Sorted(history) && Spaced(history) && i < |history| && j < |history|
    ensures i + GLOBAL_REQUESTS <= j ==> history[i] + GLOBAL_WINDOW <= history[j]
  {
    if i + GLOBAL_REQUESTS < j { assert history[i + GLOBAL_REQUESTS] <= history[j]; }
  }

  lemma SpacedWindows(history: seq<Time>, from: Time)
    requires Sorted(history) && Spaced(history)
    ensures |Inside(history, from)| <= GLOBAL_REQUESTS
  {
    var inside := Inside(history, from);
    if inside != {} {
      var first := Least(inside);
      forall i | i in inside ensures first <= i < first + GLOBAL_REQUESTS {
        SpacedApart(history, first, i);
      }
      RangeSize(inside, first, GLOBAL_REQUESTS);
    }
  }

  lemma Least(s: set<nat>) returns (m: nat)
    requires s != {}
    ensures m in s && forall i | i in s :: m <= i
    decreases |s|
  {
    m :| m in s;
    var rest := s - {m};
    assert s == rest + {m};
    if rest != {} {
      var o := Least(rest);
      if o < m { m := o; }
    }
  }

  lemma {:induction false} RangeSize(s: set<nat>, from: nat, n: nat)
    requires forall i | i in s :: from <= i < from + n
    ensures |s| <= n
    decreases n
  {
    if n == 0 {
      assert s == {};
    } else {
      var last := from + n - 1;
      RangeSize(s - {last}, from, n - 1);
      assert last in s ==> s == (s - {last}) + {last};
      assert last !in s ==> s == s - {last};
    }
  }

  /** The window's retry hint is exact: closed before it, open at it. */
  lemma WindowHintExact(started: seq<Time>, now: Time, t: Time)
    requires Sorted(started) && |Recent(started, now)| >= GLOBAL_REQUESTS && now <= t
    ensures var recent := Recent(started, now);
            |Recent(started, t)| >= GLOBAL_REQUESTS <==> t < recent[|recent| - GLOBAL_REQUESTS] + GLOBAL_WINDOW
  {
    RecentIsTail(started, now);
    RecentIsTail(started, t);
    var recent, later := Recent(started, now), Recent(started, t);
    var k := |started| - GLOBAL_REQUESTS;
    assert recent[|recent| - GLOBAL_REQUESTS] == started[k];
    if |later| >= GLOBAL_REQUESTS {
      assert later[|later| - GLOBAL_REQUESTS] == started[k];
      RecentIsRecent(started, t, |later| - GLOBAL_REQUESTS);
    }
  }

  // ---------------------------------------------------------------- the invariant

  ghost predicate SlotsInv(s: System) {
    && s.pool.count == |s.pool.idle| + |s.pool.inflight| <= MAX_CONNECTIONS
    && s.flights.Keys == s.pool.inflight && s.pool.pending <= s.pool.inflight
    && (s.pool.closed ==> s.pool.idle == [])
  }

  /** No connection serves two requests, or waits in the pool while it serves one. */
  ghost predicate ConnsInv(s: System) {
    && Distinct(s.pool.idle)
    && (forall c | c in s.pool.idle :: c < s.nextConn)
    && (forall k | k in s.flights :: s.flights[k] < s.nextConn && s.flights[k] !in s.pool.idle)
    && (forall k, o | k in s.flights && o in s.flights && k != o :: s.flights[k] != s.flights[o])
  }

  ghost predicate MajorsInv(s: System) {
    forall a, b | a in s.pool.inflight && b in s.pool.inflight && a != b && a.major != [] :: a.major != b.major
  }

  ghost predicate WindowInv(s: System) {
    Remembers(s.pool.started, s.history, s.now) && Spaced(s.history)
  }

  ghost predicate SysInv(s: System) {
    SlotsInv(s) && ConnsInv(s) && MajorsInv(s) && WindowInv(s)
  }

  lemma RequestStep(s: System, key: Key)
    requires SysInv(s)
    ensures SysInv(Step(s, Request(key)))
  {
    if MayReserve(s.pool, key, s.now) {
      AdmittedIff(s.pool, key, s.now);
      TrimRemembers(s.pool.started, s.history, s.now);
      AppendRemembers(Trim(s.pool.started, s.now), s.history, s.now);
      StartSpaced(s.pool.started, s.history, s.now);
      NotInFlight(s.pool, key);
      AdmitSlots(s, key);
      AdmitConns(s, key);
      AdmitMajors(s, key);
    }
  }

  /** An admitted request is a new one, on a resource of its own. */
  lemma NotInFlight(p: Pool, key: Key)
    requires !Contended(p, key)
    ensures key !in p.inflight
    ensures forall a | a in p.inflight && key.major != [] :: a.major != key.major
  {
    forall a | a in p.inflight ensures !SameResource(p.buckets, key, a) {}
    if key in p.inflight { assert SameResource(p.buckets, key, key); }
  }

  lemma AdmitSlots(s: System, key: Key)
    requires SlotsInv(s) && MayReserve(s.pool, key, s.now) && !NoSlot(s.pool) && key !in s.pool.inflight
    ensures SlotsInv(Step(s, Request(key)))
  {
    assert |s.pool.inflight + {key}| == |s.pool.inflight| + 1;
  }

  lemma AdmitConns(s: System, key: Key)
    requires ConnsInv(s) && MayReserve(s.pool, key, s.now) && key !in s.flights
    ensures ConnsInv(Step(s, Request(key)))
  {
    if s.pool.idle != [] {
      var n := |s.pool.idle| - 1;
      assert s.pool.idle[n] in s.pool.idle;
      assert forall c | c in s.pool.idle[..n] :: c in s.pool.idle && c != s.pool.idle[n];
    }
  }

  lemma AdmitMajors(s: System, key: Key)
    requires MajorsInv(s) && MayReserve(s.pool, key, s.now)
    requires forall a | a in s.pool.inflight && key.major != [] :: a.major != key.major
    ensures MajorsInv(Step(s, Request(key)))
  {
    var next := Step(s, Request(key));
    assert next.pool.inflight == s.pool.inflight + {key};
  }

  lemma DoneSlots(s: System, key: Key, reusable: bool)
    requires SlotsInv(s) && key in s.flights
    ensures SlotsInv(Step(s, Done(key, reusable)))
  {
    assert s.pool.inflight == s.pool.inflight - {key} + {key};
    assert |s.pool.inflight| == |s.pool.inflight - {key}| + 1;
  }

  lemma DoneConns(s: System, key: Key, reusable: bool)
    requires ConnsInv(s) && key in s.flights
    ensures ConnsInv(Step(s, Done(key, reusable)))
  {
  }

  lemma DoneStep(s: System, key: Key, reusable: bool)
    requires SysInv(s) && Enabled(s, Done(key, reusable))
    ensures SysInv(Step(s, Done(key, reusable)))
  {
    DoneSlots(s, key, reusable);
    DoneConns(s, key, reusable);
  }

  lemma {:induction false} TickWindow(s: System, later: Time)
    requires WindowInv(s) && s.now <= later
    ensures WindowInv(s.(now := later))
  {
  }

  lemma StepKeeps(s: System, e: Event)
    requires SysInv(s) && Enabled(s, e)
    ensures SysInv(Step(s, e))
  {
    match e
    case Request(key) => RequestStep(s, key);
    case Done(key, reusable) => DoneStep(s, key, reusable);
    case Tick(later) => TickWindow(s, later);
    case Headers(key, bucket, limited, exhausted) =>
    case LimitBody(key, retryAfter, global) =>
    case Shut =>
  }

  ghost predicate Run(states: seq<System>, events: seq<Event>) {
    && |states| == |events| + 1
    && states[0] == START
    && forall i | 0 <= i < |events| :: Enabled(states[i], events[i]) && states[i + 1] == Step(states[i], events[i])
  }

  lemma {:induction false} RunKeeps(states: seq<System>, events: seq<Event>, i: nat)
    requires Run(states, events) && i < |states|
    ensures SysInv(states[i])
  {
    if i > 0 {
      RunKeeps(states, events, i - 1);
      StepKeeps(states[i - 1], events[i - 1]);
    }
  }

  /** Any one-second half-open window of any run contains at most 25 request starts. */
  lemma AtMostTwentyFive(states: seq<System>, events: seq<Event>, n: nat, from: Time)
    requires Run(states, events) && n < |states|
    ensures |Inside(states[n].history, from)| <= GLOBAL_REQUESTS
  {
    RunKeeps(states, events, n);
    SpacedWindows(states[n].history, from);
  }

  /** Slots are conserved, and requests in flight never share a major resource or a connection. */
  lemma SlotsConserved(states: seq<System>, events: seq<Event>, n: nat)
    requires Run(states, events) && n < |states|
    ensures var s := states[n];
            && 0 <= s.pool.count <= MAX_CONNECTIONS
            && s.pool.count == |s.pool.idle| + |s.pool.inflight|
            && s.pool.pending <= s.pool.inflight == s.flights.Keys
            && (s.pool.closed && s.flights == map[] ==> s.pool.count == 0)
            && (forall a, b | a in s.flights && b in s.flights && a != b ::
                  s.flights[a] != s.flights[b] && (a.major != [] ==> a.major != b.major))
  {
    RunKeeps(states, events, n);
  }

  // ---------------------------------------------------------------- learned waits

  ghost predicate GatesGrow(a: Pool, b: Pool) {
    a.globalUntil <= b.globalUntil && forall g :: Gated(a.blocked, g) <= Gated(b.blocked, g)
  }

  lemma BlockGrows(p: Pool, key: Key, deadline: Time)
    ensures GatesGrow(p, BlockRoute(p, key, deadline))
    ensures Gated(BlockRoute(p, key, deadline).blocked, RouteGate(key.route, key.major)) >= deadline
  {
  }

  lemma LearnGrows(p: Pool, key: Key, bucket: Option<string>)
    ensures GatesGrow(p, LearnBucket(p, key, bucket))
  {
  }

  lemma HeadersGrow(p: Pool, key: Key, bucket: Option<string>, limited: bool, exhausted: Option<Time>, now: Time)
    ensures GatesGrow(p, ReadHeaders(p, key, bucket, limited, exhausted, now))
  {
    LearnGrows(p, key, bucket);
    var learned := LearnBucket(p, key, bucket);
    if !limited && exhausted.Some? { BlockGrows(learned, key, now + exhausted.value); }
  }

  lemma StepGates(s: System, e: Event)
    requires Enabled(s, e)
    ensures GatesGrow(s.pool, Step(s, e).pool)
  {
    match e
    case Headers(key, bucket, limited, exhausted) => HeadersGrow(s.pool, key, bucket, limited, exhausted, s.now);
    case LimitBody(key, retryAfter, _) => BlockGrows(s.pool, key, s.now + retryAfter);
    case _ =>
  }

  lemma GatesTrans(a: Pool, b: Pool, c: Pool)
    requires GatesGrow(a, b) && GatesGrow(b, c)
    ensures GatesGrow(a, c)
  {
    forall g ensures Gated(a.blocked, g) <= Gated(c.blocked, g) {
      assert Gated(a.blocked, g) <= Gated(b.blocked, g);
    }
  }

  lemma RunGates(states: seq<System>, events: seq<Event>, n: nat)
    requires Run(states, events) && n < |events|
    ensures GatesGrow(states[n].pool, states[n + 1].pool)
  {
    StepGates(states[n], events[n]);
  }

  /** Each state's gates are no later than the next one's. */
  ghost predicate Growing(states: seq<System>) {
    forall i | 0 <= i < |states| - 1 :: GatesGrow(states[i].pool, states[i + 1].pool)
  }

  lemma {:induction false} GrowingChain(states: seq<System>, n: nat, m: nat)
    requires Growing(states) && n <= m < |states|
    ensures GatesGrow(states[n].pool, states[m].pool)
    decreases m - n
  {
    if n < m {
      GrowingChain(states, n, m - 1);
      assert GatesGrow(states[m - 1].pool, states[m - 1 + 1].pool);
      GatesTrans(states[n].pool, states[m - 1].pool, states[m].pool);
    }
  }

  lemma GatesOnlyGrow(states: seq<System>, events: seq<Event>, n: nat, m: nat)
    requires Run(states, events) && n <= m < |states|
    ensures GatesGrow(states[n].pool, states[m].pool)
  {
    forall i | 0 <= i < |states| - 1 ensures GatesGrow(states[i].pool, states[i + 1].pool) {
      RunGates(states, events, i);
    }
    GrowingChain(states, n, m);
  }

  /** What the step's response says about how long this pair must wait. */
  function LearnedWait(s: System, e: Event): Option<(Key, Time)> {
    match e
    case Headers(key, _, false, Some(reset)) => Some((key, s.now + reset))
    case LimitBody(key, retryAfter, _) => Some((key, s.now + retryAfter))
    case _ => None
  }

  lemma LearnedNow(s: System, e: Event)
    requires Enabled(s, e) && LearnedWait(s, e).Some?
    ensures var (key, until) := LearnedWait(s, e).value; var after := Step(s, e).pool;
            Gated(after.blocked, RouteGate(key.route, key.major)) >= until || after.globalUntil >= until
  {
    match e
    case Headers(key, bucket, _, exhausted) =>
      BlockGrows(LearnBucket(s.pool, key, bucket), key, s.now + exhausted.value);
    case LimitBody(key, retryAfter, global) => BlockGrows(s.pool, key, s.now + retryAfter);
  }

  /** A wait learned on (route, major) gates that pair until its deadline, whatever buckets are
      learned, renamed or aliased in between. */
  lemma LearnedWaitHolds(states: seq<System>, events: seq<Event>, n: nat, m: nat)
    requires Run(states, events) && n < m < |states| && LearnedWait(states[n], events[n]).Some?
    ensures var (key, until) := LearnedWait(states[n], events[n]).value;
            && CooldownUntil(states[m].pool, key) >= until
            && (states[m].now < until ==> !MayReserve(states[m].pool, key, states[m].now))
  {
    var (key, until) := LearnedWait(states[n], events[n]).value;
    GatesOnlyGrow(states, events, n + 1, m);
    var after := states[n + 1].pool;
    LearnedNow(states[n], events[n]);
    assert Gated(after.blocked, RouteGate(key.route, key.major)) >= until || after.globalUntil >= until;
    assert Gated(after.blocked, RouteGate(key.route, key.major))
           <= Gated(states[m].pool.blocked, RouteGate(key.route, key.major));
    AdmittedIff(states[m].pool, key, states[m].now);
  }

  /** Another resource's response moves the pair's route to a bucket where less is blocked for the
      pair than under its present name. */
  predicate RenamedAway(p: Pool, e: Event, key: Key) {
    && e.Headers? && e.key.route == key.route && e.key.major != key.major && e.bucket.Some?
    && Max(Max(Gated(p.blocked, BucketGate(e.bucket.value, key.major)),
               Gated(p.blocked, RouteGate(key.route, key.major))), p.globalUntil)
       < Gated(p.blocked, LimitKey(p.buckets, key))
  }

  lemma OwnLearningKeeps(p: Pool, key: Key, bucket: Option<string>)
    ensures CooldownUntil(p, key) <= CooldownUntil(LearnBucket(p, key, bucket), key)
  {
  }

  /** Gates of another resource are untouched by a response; only the bucket's name may change. */
  lemma OtherMajorsUntouched(p: Pool, key: Key, other: Key, bucket: Option<string>, limited: bool,
                             exhausted: Option<Time>, now: Time)
    requires other.major != key.major
    ensures var next := ReadHeaders(p, key, bucket, limited, exhausted, now);
            && (forall b ::
                  Gated(next.blocked, BucketGate(b, other.major)) == Gated(p.blocked, BucketGate(b, other.major)))
            && (forall r ::
                  Gated(next.blocked, RouteGate(r, other.major)) == Gated(p.blocked, RouteGate(r, other.major)))
            && next.globalUntil == p.globalUntil
            && next.buckets == if bucket.Some? then p.buckets[key.route := bucket.value] else p.buckets
  {
  }

  lemma SameNameKeeps(a: Pool, b: Pool, key: Key)
    requires GatesGrow(a, b) && LimitKey(a.buckets, key) == LimitKey(b.buckets, key)
    ensures CooldownUntil(a, key) <= CooldownUntil(b, key)
  {
  }

  lemma ForeignHeaders(p: Pool, key: Key, other: Key, bucket: Option<string>, limited: bool,
                       exhausted: Option<Time>, now: Time)
    requires other.major != key.major
    ensures var next := ReadHeaders(p, key, bucket, limited, exhausted, now);
            CooldownUntil(next, other) < CooldownUntil(p, other)
            <==> RenamedAway(p, Headers(key, bucket, limited, exhausted), other)
  {
    OtherMajorsUntouched(p, key, other, bucket, limited, exhausted, now);
  }

  lemma OwnHeaders(p: Pool, key: Key, bucket: Option<string>, limited: bool, exhausted: Option<Time>, now: Time)
    ensures CooldownUntil(p, key) <= CooldownUntil(ReadHeaders(p, key, bucket, limited, exhausted, now), key)
  {
    var learned := LearnBucket(p, key, bucket);
    OwnLearningKeeps(p, key, bucket);
    if !limited && exhausted.Some? {
      BlockGrows(learned, key, now + exhausted.value);
      SameNameKeeps(learned, BlockRoute(learned, key, now + exhausted.value), key);
    }
  }

  lemma SiblingHeaders(p: Pool, key: Key, other: Key, bucket: Option<string>, limited: bool,
                       exhausted: Option<Time>, now: Time)
    requires other.route != key.route
    ensures CooldownUntil(p, other) <= CooldownUntil(ReadHeaders(p, key, bucket, limited, exhausted, now), other)
  {
    HeadersGrow(p, key, bucket, limited, exhausted, now);
    SameNameKeeps(p, ReadHeaders(p, key, bucket, limited, exhausted, now), other);
  }

  lemma HeadersDrop(s: System, e: Event, key: Key)
    requires Enabled(s, e) && e.Headers?
    ensures CooldownUntil(Step(s, e).pool, key) < CooldownUntil(s.pool, key) <==> RenamedAway(s.pool, e, key)
  {
    if e.key.major != key.major {
      ForeignHeaders(s.pool, e.key, key, e.bucket, e.limited, e.exhausted, s.now);
    } else if e.key == key {
      OwnHeaders(s.pool, key, e.bucket, e.limited, e.exhausted, s.now);
    } else {
      SiblingHeaders(s.pool, e.key, key, e.bucket, e.limited, e.exhausted, s.now);
    }
  }

  /** The effective cooldown of a pair drops in exactly one way: a rename on another resource. */
  lemma CooldownDropsOnlyByRename(s: System, e: Event, key: Key)
    requires Enabled(s, e)
    ensures CooldownUntil(Step(s, e).pool, key) < CooldownUntil(s.pool, key) <==> RenamedAway(s.pool, e, key)
  {
    if e.Headers? {
      HeadersDrop(s, e, key);
    } else {
      StepGates(s, e);
      SameNameKeeps(s.pool, Step(s, e).pool, key);
    }
  }
}
