/** The client as it runs: a deque, sets, maps and a counter updated in place under one lock. Each
    section is proved to be a step of the run. */
module PoolClient {
  import opened Basics
  import opened PoolTables
  import opened PoolRun

  class DiscordClient {
    var started: seq<Time>
    var inflight: set<Key>
    var pending: set<Key>
    var idle: seq<Conn>
    var count: int
    var closed: bool
    var blocked: map<Gate, Time>
    var buckets: map<Route, string>
    var globalUntil: Time
    /** The last clock reading, the connection of each request in flight, and all starts so far. */
    ghost var clock: Time
    ghost var flights: map<Key, Conn>
    ghost var nextConn: Conn
    ghost var history: seq<Time>

    function State(): Pool
      reads this
    {
      Pool(started, inflight, pending, idle, count, closed, blocked, buckets, globalUntil)
    }

    ghost function Now(): System
      reads this
    {
      System(State(), clock, flights, nextConn, history)
    }

    ghost predicate Valid()
      reads this
    {
      SysInv(Now())
    }

    constructor ()
      ensures Valid() && Now() == START
    {
      started, inflight, pending, idle, count, closed := [], {}, {}, [], 0, false;
      blocked, buckets, globalUntil := map[], map[], 0.0;
      clock, flights, nextConn, history := 0.0, map[], 0, [];
    }

    method RecentStarts(now: Time) returns (recent: seq<Time>)
      ensures recent == Recent(started, now)
    {
      recent := [];
      for i := 0 to |started|
        invariant recent == Recent(started[..i], now)
      {
        assert started[..i + 1][..i] == started[..i];
        if started[i] > now - GLOBAL_WINDOW { recent := recent + [started[i]]; }
      }
      assert started[..|started|] == started;
    }

    /** Read the gates without changing state. */
    method Wait(key: Key, now: Time) returns (wait: Time, global: bool)
      ensures (wait, global) == WaitUntil(State(), key, now)
    {
      var until := CooldownUntil(State(), key);
      global := globalUntil > now;
      var recent := RecentStarts(now);
      if |recent| >= GLOBAL_REQUESTS {
        until := Max(until, recent[|recent| - GLOBAL_REQUESTS] + GLOBAL_WINDOW);
        global := true;
      }
      if pending != {} {
        until := Max(until, now + BUSY_DELAY);
        global := true;
      }
      var left := inflight;
      while left != {}
        invariant left <= inflight
        invariant forall a | a in inflight && a !in left :: !SameResource(buckets, key, a)
        decreases |left|
      {
        var a :| a in left;
        if SameResource(buckets, key, a) {
          assert Contended(State(), key);
          until := Max(until, now + BUSY_DELAY);
          break;
        }
        left := left - {a};
      }
      if idle == [] && count >= MAX_CONNECTIONS { until := Max(until, now + BUSY_DELAY); }
      wait := Max(0.0, until - now);
    }

    method RetryDelay(key: Key, now: Time) returns (delay: Option<Time>)
      ensures delay == if closed then None else Some(WaitUntil(State(), key, now).0)
    {
      if closed { return None; }
      var wait, _ := Wait(key, now);
      delay := Some(wait);
    }

    method CooldownDelay(key: Key, now: Time) returns (delay: Option<Time>)
      ensures delay.None? <==> closed
      ensures delay.Some? ==> delay.value >= 0.0
                              && (delay.value == 0.0 <==> CooldownUntil(State(), key) <= now)
                              && (delay.value > 0.0 ==> now + delay.value == CooldownUntil(State(), key))
    {
      if closed { return None; }
      delay := Some(Max(0.0, CooldownUntil(State(), key) - now));
    }

    /** Drop starts that left the window. */
    method TrimStarted(now: Time)
      modifies this`started
      ensures started == Trim(old(started), now)
    {
      while started != [] && started[0] <= now - GLOBAL_WINDOW
        invariant Trim(started, now) == Trim(old(started), now)
        decreases |started|
      {
        started := started[1..];
      }
    }

    /** Take a slot: a pooled connection when there is one. */
    method Occupy(key: Key, now: Time) returns (reused: Option<Conn>)
      requires clock == now
      modifies this
      ensures Now() == Admitted(old(Now()), key) && key in flights
      ensures reused.Some? ==> reused.value == flights[key] && reused.value in old(idle)
    {
      NoteStart(key, now);
      reused := TakeSlot(key);
    }

    method NoteStart(key: Key, now: Time)
      modifies this`started, this`history, this`inflight
      ensures started == Trim(old(started), now) + [now]
      ensures history == old(history) + [now] && inflight == old(inflight) + {key}
    {
      TrimStarted(now);
      started := started + [now];
      history := history + [now];
      inflight := inflight + {key};
    }

    method TakeSlot(key: Key) returns (reused: Option<Conn>)
      modifies this`idle, this`count, this`flights, this`nextConn
      ensures if old(idle) == [] then
                && reused.None? && idle == [] && count == old(count) + 1
                && flights == old(flights)[key := old(nextConn)] && nextConn == old(nextConn) + 1
              else
                && reused == Some(old(idle)[|old(idle)| - 1]) && idle == old(idle)[..|old(idle)| - 1]
                && count == old(count) && flights == old(flights)[key := reused.value] && nextConn == old(nextConn)
    {
      if idle != [] {
        reused := Some(idle[|idle| - 1]);
        flights := flights[key := idle[|idle| - 1]];
        idle := idle[..|idle| - 1];
      } else {
        reused := None;
        count := count + 1;
        flights := flights[key := nextConn];
        nextConn := nextConn + 1;
      }
    }

    method Decide(key: Key, now: Time) returns (admitted: bool, wait: Time, global: bool, reused: Option<Conn>)
      requires clock == now
      modifies this
      ensures Now() == Step(old(Now()), Request(key)) && admitted == MayReserve(old(State()), key, now)
      ensures !old(closed) ==> (wait, global) == WaitUntil(old(State()), key, now)
      ensures admitted ==> key in flights
      ensures admitted && reused.Some? ==> reused.value == flights[key] && reused.value in old(idle)
    {
      admitted, wait, global, reused := false, 0.0, false, None;
      if closed { return; }
      wait, global := Wait(key, now);
      if wait != 0.0 { return; }
      admitted := true;
      reused := Occupy(key, now);
    }

    /** Check every gate and reserve, in one locked section. */
    method StartRequest(key: Key, now: Time) returns (admitted: bool, wait: Time, global: bool, reused: Option<Conn>)
      requires Valid() && clock <= now
      modifies this
      ensures Valid() && Now() == Step(Step(old(Now()), Tick(now)), Request(key))
      ensures admitted == MayReserve(old(State()), key, now)
      ensures !old(closed) ==> (wait, global) == WaitUntil(old(State()), key, now)
      ensures admitted ==> key in flights
      ensures admitted && reused.Some? ==> reused.value == flights[key] && reused.value in old(idle)
    {
      StepKeeps(Now(), Tick(now));
      StepKeeps(Step(Now(), Tick(now)), Request(key));
      clock := now;
      admitted, wait, global, reused := Decide(key, now);
    }

    method Learn(key: Key, bucket: Option<string>) returns (gate: Gate)
      modifies this`buckets, this`blocked
      ensures State() == LearnBucket(old(State()), key, bucket) && gate == LimitKey(buckets, key)
    {
      var previous := LimitKey(buckets, key);
      if bucket.Some? { buckets := buckets[key.route := bucket.value]; }
      gate := LimitKey(buckets, key);
      if gate != previous {
        blocked := blocked[gate := Max(Gated(blocked, gate), Gated(blocked, previous))];
      }
    }

    method Block(key: Key, gate: Gate, deadline: Time)
      requires gate == LimitKey(buckets, key)
      modifies this`blocked
      ensures State() == BlockRoute(old(State()), key, deadline)
    {
      blocked := blocked[gate := Max(Gated(blocked, gate), deadline)];
      var own := RouteGate(key.route, key.major);
      blocked := blocked[own := Max(Gated(blocked, own), deadline)];
    }

    method NoteHeaders(key: Key, bucket: Option<string>, limited: bool, exhausted: Option<Time>, now: Time)
      modifies this`buckets, this`blocked, this`pending
      ensures State() == ReadHeaders(old(State()), key, bucket, limited, exhausted, now)
    {
      var gate := Learn(key, bucket);
      if limited { pending := pending + {key}; }
      if !limited && exhausted.Some? { Block(key, gate, now + exhausted.value); }
    }

    /** Response headers are read while the request is still in flight. */
    method ResponseHeaders(key: Key, bucket: Option<string>, limited: bool, exhausted: Option<Time>, now: Time)
      requires Valid() && clock <= now && key in flights
      modifies this
      ensures Valid() && Now() == Step(Step(old(Now()), Tick(now)), Headers(key, bucket, limited, exhausted))
    {
      StepKeeps(Now(), Tick(now));
      StepKeeps(Step(Now(), Tick(now)), Headers(key, bucket, limited, exhausted));
      clock := now;
      NoteHeaders(key, bucket, limited, exhausted, now);
    }

    method NoteLimit(key: Key, retryAfter: Time, global: bool, now: Time)
      modifies this`blocked, this`globalUntil
      ensures State() == ReadLimit(old(State()), key, retryAfter, global, now)
    {
      if global {
        globalUntil := Max(globalUntil, now + retryAfter);
      } else {
        Block(key, LimitKey(buckets, key), now + retryAfter);
      }
    }

    /** A 429's body is interpreted; its gate is looked up again, for it may have been renamed. */
    method LimitResponse(key: Key, retryAfter: Time, global: bool, now: Time)
      requires Valid() && clock <= now && key in flights
      modifies this
      ensures Valid() && Now() == Step(Step(old(Now()), Tick(now)), LimitBody(key, retryAfter, global))
    {
      StepKeeps(Now(), Tick(now));
      StepKeeps(Step(Now(), Tick(now)), LimitBody(key, retryAfter, global));
      clock := now;
      NoteLimit(key, retryAfter, global, now);
    }

    method Leave(key: Key, connection: Option<Conn>, reusable: bool) returns (kept: bool)
      requires key in flights && (connection.Some? ==> connection.value == flights[key])
      modifies this
      ensures Now() == Step(old(Now()), Done(key, reusable && connection.Some?))
      ensures kept == (connection.Some? && reusable && !closed)
    {
      inflight := inflight - {key};
      pending := pending - {key};
      flights := flights - {key};
      kept := connection.Some? && reusable && !closed;
      if kept { idle := idle + [connection.value]; } else { count := count - 1; }
    }

    /** Leave the gates; a reusable connection goes back unless the client was closed meanwhile. */
    method FinishRequest(key: Key, connection: Option<Conn>, reusable: bool) returns (kept: bool)
      requires Valid() && key in flights && (connection.Some? ==> connection.value == flights[key])
      modifies this
      ensures Valid() && Now() == Step(old(Now()), Done(key, reusable && connection.Some?))
      ensures kept == (connection.Some? && reusable && !closed)
    {
      StepKeeps(Now(), Done(key, reusable && connection.Some?));
      kept := Leave(key, connection, reusable);
    }

    method CloseClient() returns (connections: seq<Conn>)
      requires Valid()
      modifies this
      ensures Valid() && Now() == Step(old(Now()), Shut) && connections == old(idle)
    {
      StepKeeps(Now(), Shut);
      closed := true;
      connections, idle := idle, [];
      count := count - |connections|;
    }
  }
}
