/** The cooldown that another resource's response can take away, as a run. */
module PoolRename {
  import opened Basics
  import opened Paths
  import opened PoolTables
  import opened PoolRun

  const WRITE := PoolTables.Route("POST", "messages")
  const EDIT := PoolTables.Route("PATCH", "messages")
  const HERE: Major := ["channels", "1"]
  const THERE: Major := ["channels", "2"]
  const OURS := Key(EDIT, HERE)
  const OTHER := Key(EDIT, THERE)

  /** Between requests that follow one another on one connection, all at time zero. */
  ghost predicate Resting(s: System, buckets: map<PoolTables.Route, string>, blocked: map<Gate, Time>, starts: nat) {
    && s.now == 0.0 && s.pool.pending == {} && s.pool.inflight == {} && !s.pool.closed && s.pool.globalUntil == 0.0
    && |s.pool.started| <= starts < GLOBAL_REQUESTS && s.pool.count == |s.pool.idle| <= 1
    && s.pool.buckets == buckets && s.pool.blocked == blocked
  }

  lemma TrimShrinks(started: seq<Time>, now: Time)
    ensures |Trim(started, now)| <= |started|
  {
  }

  /** While this request is in flight. */
  ghost predicate Flying(s: System, key: Key, buckets: map<PoolTables.Route, string>, blocked: map<Gate, Time>,
                         starts: nat) {
    && s.now == 0.0 && s.pool.pending == {} && s.pool.inflight == {key} && !s.pool.closed && s.pool.globalUntil == 0.0
    && |s.pool.started| <= starts && s.pool.count == 1 && s.pool.idle == [] && key in s.flights
    && s.pool.buckets == buckets && s.pool.blocked == blocked
  }

  lemma Starts(s: System, key: Key, buckets: map<PoolTables.Route, string>, blocked: map<Gate, Time>, starts: nat)
    requires Resting(s, buckets, blocked, starts) && CooldownUntil(s.pool, key) <= 0.0
    ensures Flying(Step(s, Request(key)), key, buckets, blocked, starts + 1)
  {
    AdmittedIff(s.pool, key, s.now);
    TrimShrinks(s.pool.started, s.now);
  }

  lemma Answers(s: System, key: Key, buckets: map<PoolTables.Route, string>, blocked: map<Gate, Time>, starts: nat,
                bucket: string, exhausted: Option<Time>)
    requires Flying(s, key, buckets, blocked, starts)
    ensures var t := Step(s, Headers(key, Some(bucket), false, exhausted));
            && Flying(t, key, buckets[key.route := bucket], t.pool.blocked, starts)
            && t.pool == ReadHeaders(s.pool, key, Some(bucket), false, exhausted, 0.0)
  {
  }

  lemma Rests(s: System, key: Key, buckets: map<PoolTables.Route, string>, blocked: map<Gate, Time>, starts: nat)
    requires Flying(s, key, buckets, blocked, starts) && starts < GLOBAL_REQUESTS
    ensures Resting(Step(s, Done(key, true)), buckets, blocked, starts)
  {
  }

  /** Gates known after the first exchange, and kept by those on the other resource. */
  ghost predicate HereBlocked(blocked: map<Gate, Time>) {
    && Gated(blocked, BucketGate("shared", HERE)) == 10.0 && Gated(blocked, BucketGate("own", HERE)) == 0.0
    && Gated(blocked, PoolTables.RouteGate(EDIT, HERE)) == 0.0
    && Gated(blocked, BucketGate("shared", THERE)) == 0.0 && Gated(blocked, BucketGate("own", THERE)) == 0.0
    && Gated(blocked, PoolTables.RouteGate(EDIT, THERE)) == 0.0
  }

  /** One step of the run. */
  predicate Moves(s: System, e: Event, t: System) {
    Enabled(s, e) && t == Step(s, e)
  }

  /** A request, up to its answer's headers. */
  lemma Answered(s: System, key: Key, buckets: map<PoolTables.Route, string>, blocked: map<Gate, Time>, starts: nat)
    returns (a: System)
    requires Resting(s, buckets, blocked, starts) && CooldownUntil(s.pool, key) <= 0.0
    ensures Leads(Moves, s, a) && Flying(a, key, buckets, blocked, starts + 1)
  {
    Starts(s, key, buckets, blocked, starts);
    a := Step(s, Request(key));
    LeadsSelf(Moves, s);
    LeadsStep(Moves, s, s, Request(key), a);
  }

  lemma Exchange(s: System, key: Key, buckets: map<PoolTables.Route, string>, blocked: map<Gate, Time>, starts: nat,
                 bucket: string, exhausted: Option<Time>)
    returns (a: System, c: System)
    requires Resting(s, buckets, blocked, starts) && CooldownUntil(s.pool, key) <= 0.0 && starts + 1 < GLOBAL_REQUESTS
    ensures Leads(Moves, s, c) && a.pool.buckets == buckets && a.pool.blocked == blocked
    ensures Resting(c, buckets[key.route := bucket],
                    ReadHeaders(a.pool, key, Some(bucket), false, exhausted, 0.0).blocked, starts + 1)
  {
    a := Answered(s, key, buckets, blocked, starts);
    Answers(a, key, buckets, blocked, starts + 1, bucket, exhausted);
    var b := Step(a, Headers(key, Some(bucket), false, exhausted));
    Rests(b, key, b.pool.buckets, b.pool.blocked, starts + 1);
    c := Step(b, Done(key, true));
    LeadsStep(Moves, s, a, Headers(key, Some(bucket), false, exhausted), b);
    LeadsStep(Moves, s, b, Done(key, true), c);
  }

  lemma Elsewhere()
    ensures HERE != THERE
  {
    assert HERE[1] != THERE[1];
  }

  lemma WriteBlocks(p: Pool)
    requires p.buckets == map[] && p.blocked == map[]
    ensures HereBlocked(ReadHeaders(p, Key(WRITE, HERE), Some("shared"), false, Some(10.0), 0.0).blocked)
  {
    Elsewhere();
  }

  /** An answer elsewhere without a wait moves no gate of ours. */
  lemma EditKeeps(p: Pool, bucket: string)
    requires HereBlocked(p.blocked) && (EDIT in p.buckets ==> p.buckets[EDIT] == "shared")
    requires bucket == "shared" || bucket == "own"
    ensures HereBlocked(ReadHeaders(p, OTHER, Some(bucket), false, None, 0.0).blocked)
  {
    Elsewhere();
  }

  lemma Drops(p: Pool)
    requires HereBlocked(p.blocked) && EDIT in p.buckets && p.buckets[EDIT] == "shared" && p.globalUntil == 0.0
    ensures var next := ReadHeaders(p, OTHER, Some("own"), false, None, 0.0);
            CooldownUntil(p, OURS) == 10.0 && CooldownUntil(next, OURS) == 0.0
    ensures RenamedAway(p, Headers(OTHER, Some("own"), false, None), OURS)
  {
    Elsewhere();
    EditKeeps(p, "own");
  }

  /** A write here exhausts a bucket, then an edit elsewhere names the same bucket for all edits. */
  lemma Aliased() returns (s: System)
    ensures Leads(Moves, START, s) && Resting(s, s.pool.buckets, s.pool.blocked, 2)
    ensures HereBlocked(s.pool.blocked) && EDIT in s.pool.buckets && s.pool.buckets[EDIT] == "shared"
  {
    var a, c := Exchange(START, Key(WRITE, HERE), map[], map[], 0, "shared", Some(10.0));
    WriteBlocks(a.pool);
    var d;
    d, s := Exchange(c, OTHER, c.pool.buckets, c.pool.blocked, 1, "shared", None);
    EditKeeps(d.pool, "shared");
    LeadsJoin(Moves, START, c, s);
  }

  /** In some run our edits wait until 10, and no longer after an edit elsewhere is answered under
      another bucket. */
  lemma CooldownCanDrop() returns (s: System, e: Event)
    ensures exists states, events :: Run(states, events) && states[|events|] == s
    ensures Enabled(s, e) && RenamedAway(s.pool, e, OURS)
    ensures CooldownUntil(s.pool, OURS) == 10.0 && CooldownUntil(Step(s, e).pool, OURS) == 0.0
  {
    var f := Aliased();
    s := Answered(f, OTHER, f.pool.buckets, f.pool.blocked, 2);
    LeadsJoin(Moves, START, f, s);
    e := Headers(OTHER, Some("own"), false, None);
    Drops(s.pool);
    Reachable(s);
  }

  lemma Reachable(s: System)
    requires Leads(Moves, START, s)
    ensures exists states, events :: Run(states, events) && states[|events|] == s
  {
    var states, events := TraceLeads(Moves, [START], [], s);
    forall i | 0 <= i < |events|
      ensures Enabled(states[i], events[i]) && states[i + 1] == Step(states[i], events[i])
    {
      assert Moves(states[i], events[i], states[i + 1]);
    }
    assert Run(states, events);
  }
}
