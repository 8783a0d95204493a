/** The rate-limited connection pool: its state and the sections that run under its lock. */
module PoolTables {
  import opened Basics

  /** Method and endpoint shape. */
  datatype Route = Route(verb: string, shape: string)

  /** The independently limited resource named by a path; empty when it names none. */
  type Major = seq<string>

  datatype Key = Key(route: Route, major: Major)

  datatype Gate = BucketGate(bucket: string, major: Major) | RouteGate(route: Route, major: Major)

  type Conn = nat

  const GLOBAL_REQUESTS := 25
  const GLOBAL_WINDOW: Time := 1.0
  const MAX_CONNECTIONS := 4
  const BUSY_DELAY: Time := 0.05

  datatype Pool = Pool(
    started: seq<Time>, inflight: set<Key>, pending: set<Key>, idle: seq<Conn>, count: int, closed: bool,
    blocked: map<Gate, Time>, buckets: map<Route, string>, globalUntil: Time)

  const EMPTY := Pool([], {}, {}, [], 0, false, map[], map[], 0.0)

  // ---------------------------------------------------------------- gates

  function LimitKey(buckets: map<Route, string>, key: Key): Gate {
    if key.route in buckets then BucketGate(buckets[key.route], key.major) else RouteGate(key.route, key.major)
  }

  function Gated(blocked: map<Gate, Time>, g: Gate): Time {
    if g in blocked then blocked[g] else 0.0
  }

  /** Deadlines learned from responses only. */
  function CooldownUntil(p: Pool, key: Key): Time {
    Max(Max(Gated(p.blocked, LimitKey(p.buckets, key)), Gated(p.blocked, RouteGate(key.route, key.major))),
        p.globalUntil)
  }

  /** Starts inside the sliding window, oldest first. */
  function Recent(started: seq<Time>, now: Time): (r: seq<Time>)
    ensures |r| <= |started|
  {
    if started == [] then []
    else
      var n := |started| - 1;
      if started[n] > now - GLOBAL_WINDOW then Recent(started[..n], now) + [started[n]]
      else Recent(started[..n], now)
  }

  predicate SameResource(buckets: map<Route, string>, key: Key, active: Key) {
    if key.major != [] then key.major == active.major
    else active.major == [] && LimitKey(buckets, key) == LimitKey(buckets, active)
  }

  predicate Contended(p: Pool, key: Key) {
    exists a | a in p.inflight :: SameResource(p.buckets, key, a)
  }

  predicate NoSlot(p: Pool) {
    p.idle == [] && p.count >= MAX_CONNECTIONS
  }

  /** The latest deadline of all gates, and whether it holds back every route. */
  function Blocked(p: Pool, key: Key, now: Time): Time {
    var recent := Recent(p.started, now);
    var cooled := CooldownUntil(p, key);
    var windowed := if |recent| >= GLOBAL_REQUESTS
                    then Max(cooled, recent[|recent| - GLOBAL_REQUESTS] + GLOBAL_WINDOW) else cooled;
    if p.pending != {} || Contended(p, key) || NoSlot(p) then Max(windowed, now + BUSY_DELAY) else windowed
  }

  function WaitUntil(p: Pool, key: Key, now: Time): (Time, bool) {
    (Max(0.0, Blocked(p, key, now) - now),
     p.globalUntil > now || |Recent(p.started, now)| >= GLOBAL_REQUESTS || p.pending != {})
  }

  // ---------------------------------------------------------------- locked sections

  /** Starts that have left the window are dropped from the front. */
  function Trim(started: seq<Time>, now: Time): seq<Time> {
    if started == [] || started[0] > now - GLOBAL_WINDOW then started else Trim(started[1..], now)
  }

  predicate MayReserve(p: Pool, key: Key, now: Time) {
    !p.closed && WaitUntil(p, key, now).0 == 0.0
  }

  function Reserve(p: Pool, key: Key, now: Time): Pool {
    p.(started := Trim(p.started, now) + [now], inflight := p.inflight + {key},
       idle := if p.idle == [] then [] else p.idle[..|p.idle| - 1],
       count := if p.idle == [] then p.count + 1 else p.count)
  }

  /** A bucket header renames the route's gate and carries this resource's observed wait along. */
  function LearnBucket(p: Pool, key: Key, bucket: Option<string>): Pool {
    var buckets := if bucket.Some? then p.buckets[key.route := bucket.value] else p.buckets;
    var before, after := LimitKey(p.buckets, key), LimitKey(buckets, key);
    p.(buckets := buckets,
       blocked := if after == before then p.blocked
                  else p.blocked[after := Max(Gated(p.blocked, after), Gated(p.blocked, before))])
  }

  function Raise(blocked: map<Gate, Time>, g: Gate, deadline: Time): map<Gate, Time> {
    blocked[g := Max(Gated(blocked, g), deadline)]
  }

  /** The endpoint's own gate is kept beside the bucket's. */
  function BlockRoute(p: Pool, key: Key, deadline: Time): Pool {
    p.(blocked := Raise(Raise(p.blocked, LimitKey(p.buckets, key), deadline),
                        RouteGate(key.route, key.major), deadline))
  }

  /** The first section after a response: rename, note a 429, honour an exhausted bucket. */
  function ReadHeaders(p: Pool, key: Key, bucket: Option<string>, limited: bool, exhausted: Option<Time>,
          now: Time): Pool {
    var learned := LearnBucket(p, key, bucket);
    var noted := if limited then learned.(pending := learned.pending + {key}) else learned;
    if !limited && exhausted.Some? then BlockRoute(noted, key, now + exhausted.value) else noted
  }

  /** The second section of a 429, once its body is interpreted. */
  function ReadLimit(p: Pool, key: Key, retryAfter: Time, global: bool, now: Time): Pool {
    if global then p.(globalUntil := Max(p.globalUntil, now + retryAfter))
    else BlockRoute(p, key, now + retryAfter)
  }

  function Finish(p: Pool, key: Key, conn: Conn, reusable: bool): Pool {
    var left := p.(inflight := p.inflight - {key}, pending := p.pending - {key});
    if reusable && !p.closed then left.(idle := p.idle + [conn]) else left.(count := p.count - 1)
  }

  function Close(p: Pool): Pool {
    p.(closed := true, idle := [], count := p.count - |p.idle|)
  }
}
