/** The pool's sections told on its fields: when a request may start, whether a refusal concerns every
    route, and what each response does to the gates. */
module PoolGates {
  import opened Basics
  import opened PoolTables

  /** The starts of the last second. */
  function LastSecond(started: seq<Time>, now: Time): set<nat> {
    set i: nat | i < |started| && started[i] > now - 1.0
  }

  lemma {:induction false} RecentCounts(started: seq<Time>, now: Time)
    ensures |Recent(started, now)| == |LastSecond(started, now)|
    decreases |started|
  {
    if started == [] {
      assert LastSecond(started, now) == {};
    } else {
      var n := |started| - 1;
      RecentCounts(started[..n], now);
      OneStartMore(started, now);
    }
  }

  lemma OneStartMore(started: seq<Time>, now: Time)
    requires started != []
    ensures var n := |started| - 1;
            && n !in LastSecond(started[..n], now)
            && LastSecond(started, now) == if started[n] > now - 1.0 then LastSecond(started[..n], now) + {n}
                                           else LastSecond(started[..n], now)
  {
  }

  predicate Passed(blocked: map<Gate, Time>, g: Gate, now: Time) {
    if g in blocked then blocked[g] <= now else 0.0 <= now
  }

  /** No learned deadline lies ahead: not on the route's shared bucket, not on the route itself, not
      on everything. */
  predicate Uncooled(p: Pool, key: Key, now: Time) {
    && p.globalUntil <= now && Passed(p.blocked, RouteGate(key.route, key.major), now)
    && (key.route in p.buckets ==> Passed(p.blocked, BucketGate(p.buckets[key.route], key.major), now))
  }

  /** Two requests concern one resource: they name the same one, or neither names any and they share a
      route or a bucket. */
  predicate OneResource(p: Pool, a: Key, b: Key) {
    && a.major == b.major
    && (a.major == [] ==>
          if a.route in p.buckets && b.route in p.buckets then p.buckets[a.route] == p.buckets[b.route]
          else a.route !in p.buckets && b.route !in p.buckets && a.route == b.route)
  }

  lemma ResourceTold(p: Pool, a: Key, b: Key)
    ensures SameResource(p.buckets, a, b) <==> OneResource(p, a, b)
  {
  }

  /** A request may start exactly when the client is open, nothing cools it, fewer than 25 started in
      the last second, no rate limit is being read, nothing in flight concerns its resource, and a
      connection is idle or one of the four can be opened. */
  lemma AdmissionTold(p: Pool, key: Key, now: Time)
    ensures MayReserve(p, key, now) <==>
            && !p.closed && Uncooled(p, key, now) && |LastSecond(p.started, now)| < 25
            && p.pending == {} && (forall a | a in p.inflight :: !OneResource(p, key, a))
            && (p.idle != [] || p.count < 4)
  {
    RecentCounts(p.started, now);
    forall a | a in p.inflight ensures SameResource(p.buckets, key, a) <==> OneResource(p, key, a) {
      ResourceTold(p, key, a);
    }
    var recent := Recent(p.started, now);
    if |recent| >= 25 { LateIsAhead(p.started, now, |recent| - 25); }
  }

  lemma {:induction false} LateIsAhead(started: seq<Time>, now: Time, k: nat)
    requires k < |Recent(started, now)|
    ensures Recent(started, now)[k] + 1.0 > now
    decreases |started|
  {
    var n := |started| - 1;
    if k < |Recent(started[..n], now)| { LateIsAhead(started[..n], now, k); }
  }

  /** A refusal concerns every route exactly when the cause is global: a global cooldown, a full
      window, or a rate limit whose scope is not read yet. A twentieth of a second is the wait for what
      has no deadline. */
  lemma ScopeTold(p: Pool, key: Key, now: Time)
    ensures var (wait, everywhere) := WaitUntil(p, key, now);
            && (everywhere <==> p.globalUntil > now || |LastSecond(p.started, now)| >= 25 || p.pending != {})
            && wait >= 0.0
            && ((|| p.pending != {} || (exists a :: a in p.inflight && OneResource(p, key, a))
                 || (p.idle == [] && p.count >= 4)) ==> wait >= 0.05)
  {
    RecentCounts(p.started, now);
    forall a | a in p.inflight ensures SameResource(p.buckets, key, a) <==> OneResource(p, key, a) {
      ResourceTold(p, key, a);
    }
  }

  /** A start takes an idle connection or opens one, and is remembered with every start of the last
      second. */
  lemma ReserveTold(p: Pool, key: Key, now: Time)
    ensures var q := Reserve(p, key, now);
            && q.inflight == p.inflight + {key} && q.pending == p.pending && q.blocked == p.blocked
            && q.buckets == p.buckets && q.globalUntil == p.globalUntil && q.closed == p.closed
            && (p.idle == [] ==> q.idle == [] && q.count == p.count + 1)
            && (p.idle != [] ==> q.idle + [p.idle[|p.idle| - 1]] == p.idle && q.count == p.count)
            && q.started != [] && q.started[|q.started| - 1] == now
  {
  }

  /** The gate's deadline, if any, else the beginning of time. */
  function Deadline(blocked: map<Gate, Time>, g: Gate): Time {
    if g in blocked then blocked[g] else 0.0
  }

  /** The gate of the pair under its present name. */
  function NamedGate(p: Pool, key: Key): Gate {
    if key.route in p.buckets then BucketGate(p.buckets[key.route], key.major) else RouteGate(key.route, key.major)
  }

  /** Both gates of the pair now hold at least until then, and no later than they must; no other gate moves. */
  ghost predicate HeldUntil(a: Pool, b: Pool, key: Key, until: Time) {
    && b == a.(blocked := b.blocked)
    && forall g ::
         Deadline(b.blocked, g)
         == if g == NamedGate(a, key) || g == RouteGate(key.route, key.major) then Max(Deadline(a.blocked, g), until)
            else Deadline(a.blocked, g)
  }

  lemma BlockTold(p: Pool, key: Key, until: Time)
    ensures HeldUntil(p, BlockRoute(p, key, until), key, until)
  {
  }

  /** A bucket name moves this pair's deadline along, and never shortens the one it joins. */
  lemma BucketTold(p: Pool, key: Key, bucket: Option<string>)
    ensures var q := LearnBucket(p, key, bucket);
            && q == p.(buckets := q.buckets, blocked := q.blocked)
            && q.buckets == (if bucket == None then p.buckets else p.buckets[key.route := bucket.value])
            && forall g ::
                 Deadline(q.blocked, g)
                 == if g == NamedGate(q, key) then Max(Deadline(p.blocked, g), Deadline(p.blocked, NamedGate(p, key)))
                    else Deadline(p.blocked, g)
  {
  }

  /** Headers learn the bucket first; a 429 is pending until its body is read; an exhausted bucket holds
      the pair until its reset. */
  lemma HeadersTold(p: Pool, key: Key, bucket: Option<string>, limited: bool, exhausted: Option<Time>, now: Time)
    ensures var q := ReadHeaders(p, key, bucket, limited, exhausted, now); var learned := LearnBucket(p, key, bucket);
            && (limited ==> q == learned.(pending := p.pending + {key}))
            && (!limited && exhausted == None ==> q == learned)
            && (!limited && exhausted != None ==> HeldUntil(learned, q, key, now + exhausted.value))
  {
    if !limited && exhausted.Some? { BlockTold(LearnBucket(p, key, bucket), key, now + exhausted.value); }
  }

  /** A 429's body holds back everything, or the pair, for as long as it says. */
  lemma LimitTold(p: Pool, key: Key, retryAfter: Time, global: bool, now: Time)
    ensures var q := ReadLimit(p, key, retryAfter, global, now);
            && (global ==> q == p.(globalUntil := q.globalUntil)
                           && q.globalUntil >= p.globalUntil && q.globalUntil >= now + retryAfter
                           && (q.globalUntil == p.globalUntil || q.globalUntil == now + retryAfter))
            && (!global ==> HeldUntil(p, q, key, now + retryAfter))
  {
    if !global { BlockTold(p, key, now + retryAfter); }
  }

  /** Closing gives up the idle connections, so that only those in flight are left. */
  lemma CloseTold(p: Pool)
    ensures var q := Close(p);
            && q.closed && q.idle == [] && q.count + |p.idle| == p.count
            && q == p.(closed := true, idle := [], count := q.count)
  {
  }

  /** A finished request leaves flight and its pending limit; its connection is kept if it may be used
      again and the client is open, and is given up otherwise. */
  lemma FinishTold(p: Pool, key: Key, conn: Conn, reusable: bool)
    ensures var q := Finish(p, key, conn, reusable);
            && q.inflight == p.inflight - {key} && q.pending == p.pending - {key}
            && q.blocked == p.blocked && q.buckets == p.buckets && q.globalUntil == p.globalUntil
            && q.started == p.started && q.closed == p.closed
            && (reusable && !p.closed ==> q.idle == p.idle + [conn] && q.count == p.count)
            && (!reusable || p.closed ==> q.idle == p.idle && q.count == p.count - 1)
  {
  }
}
