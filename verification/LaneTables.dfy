/** One auxiliary scan lane: its targets, its cursor, and what each event does to them. */
module LaneTables {
  import opened Basics

  type Url = string

  const MAX_TARGETS := 2000
  const RETRIES := 2

  /** The discovery page, a keyword query, or a facet found under a parent. */
  datatype Key = Discovery | Keyword(priority: bool, query: string) | Found(kind: string, parent: Url, text: string)

  datatype Coverage = Pending | Unresolved | Complete | Duplicate

  /** selection: the target still has to be bound through its parent's control; attempted: it has been
      started in this round. */
  datatype Target = Target(
    key: Key, url: Url, selection: bool, bound: Option<Url>, attempts: nat, coverage: Coverage,
    duplicateOf: Option<Key>, limited: bool, attempted: bool)

  datatype Status = Ready | Waiting | Scanning | Paused | Disabled | Whole | Partial

  /** Which targets a configuration starts from; brand discovery is part of it. */
  datatype Fingerprint = Departments(brands: bool) | Queries(priority: bool, queries: seq<string>)

  datatype Lane = Lane(
    fingerprint: Fingerprint, targets: seq<Target>, cursor: nat, status: Status, generation: nat, round: nat,
    truncated: nat)

  function NewTarget(key: Key, url: Url, selection: bool): Target {
    Target(key, url, selection, None, 0, Pending, None, false, false)
  }

  function Put(lane: Lane, i: nat, t: Target): Lane
    requires i < |lane.targets|
  {
    lane.(targets := lane.targets[i := t])
  }

  predicate AnyUnresolved(targets: seq<Target>) {
    exists i | 0 <= i < |targets| :: targets[i].coverage.Unresolved?
  }

  // ---------------------------------------------------------------- verdicts

  datatype Verdict = Covered | GaveUp | Limited | SameAs(key: Key)

  function Judged(t: Target, v: Verdict): Target {
    match v
    case Covered => t.(coverage := Complete, duplicateOf := None, limited := false)
    case GaveUp => t.(coverage := Unresolved, duplicateOf := None, limited := false)
    case Limited => t.(coverage := Unresolved, duplicateOf := None, limited := true)
    case SameAs(key) => t.(coverage := Duplicate, duplicateOf := Some(key), limited := false)
  }

  /** Past the last target the round is over: whole only if nothing is outstanding. */
  function Advance(lane: Lane, v: Verdict): Lane
    requires lane.cursor < |lane.targets|
  {
    var next := Put(lane, lane.cursor, Judged(lane.targets[lane.cursor], v))
                  .(cursor := lane.cursor + 1, generation := lane.generation + 1);
    next.(status := if next.cursor < |next.targets| then Waiting
                    else if next.truncated > 0 || AnyUnresolved(next.targets) then Partial else Whole)
  }

  /** Two retries, then the target is left for the next round. */
  function Fail(lane: Lane): Lane {
    if lane.cursor >= |lane.targets| then lane
    else
      var t := lane.targets[lane.cursor];
      var tried := Put(lane, lane.cursor, t.(attempts := t.attempts + 1, coverage := Unresolved));
      if t.attempts + 1 > RETRIES then Advance(tried, GaveUp)
      else tried.(generation := lane.generation + 1, status := Waiting)
  }

  // ---------------------------------------------------------------- discovery and selection

  /** A candidate after its label and scope checks. */
  datatype Candidate = Candidate(key: Key, url: Url, valid: bool)

  predicate Knows(targets: seq<Target>, key: Key) {
    exists i | 0 <= i < |targets| :: targets[i].key == key
  }

  /** Targets, the keys seen so far, and how many candidates found no room. */
  function Take(targets: seq<Target>, known: set<Key>, dropped: nat, c: Candidate): (seq<Target>, set<Key>, nat) {
    if !c.valid || c.key in known then (targets, known, dropped)
    else if |targets| >= MAX_TARGETS then (targets, known + {c.key}, dropped + 1)
    else (targets + [NewTarget(c.key, c.url, true)], known + {c.key}, dropped)
  }

  function TakeAll(targets: seq<Target>, known: set<Key>, cs: seq<Candidate>): (seq<Target>, set<Key>, nat) {
    if cs == [] then (targets, known, 0)
    else
      var n := |cs| - 1;
      var (ts, ks, dropped) := TakeAll(targets, known, cs[..n]);
      Take(ts, ks, dropped, cs[n])
  }

  function KeysOf(targets: seq<Target>): set<Key> {
    set t | t in targets :: t.key
  }

  function Discover(lane: Lane, cs: seq<Candidate>): Lane {
    var listed := if |cs| > MAX_TARGETS + 1 then cs[..MAX_TARGETS + 1] else cs;
    var (targets, _, dropped) := TakeAll(lane.targets, KeysOf(lane.targets), listed);
    lane.(targets := targets, truncated := lane.truncated + dropped + (|cs| - |listed|))
  }

  predicate IsTwin(lane: Lane, i: nat, url: Url)
  {
    i < |lane.targets| && i != lane.cursor && lane.targets[i].duplicateOf.None? && lane.targets[i].bound == Some(url)
  }

  /** The first target already bound to the URL, if any. */
  function FirstTwin(lane: Lane, url: Url, from: nat): (r: Option<nat>)
    ensures r.Some? ==> IsTwin(lane, r.value, url) && forall i | from <= i < r.value :: !IsTwin(lane, i, url)
    ensures r.None? ==> forall i | from <= i < |lane.targets| :: !IsTwin(lane, i, url)
    decreases |lane.targets| - from
  {
    if from >= |lane.targets| then None
    else if IsTwin(lane, from, url) then Some(from)
    else FirstTwin(lane, url, from + 1)
  }

  /** A confirmed selection binds the target, or shows it to be another one's twin. */
  function Select(lane: Lane, url: Url): Lane
    requires lane.cursor < |lane.targets|
  {
    var twin := FirstTwin(lane, url, 0);
    if twin.Some? then Advance(lane, SameAs(lane.targets[twin.value].key))
    else Put(lane, lane.cursor, lane.targets[lane.cursor].(url := url, bound := Some(url), selection := false))
  }

  // ---------------------------------------------------------------- rounds

  const HOME: Url := "home"

  function InitialTargets(f: Fingerprint): seq<Target> {
    match f
    case Departments(_) => [NewTarget(Discovery, HOME, false)]
    case Queries(priority, queries) =>
      seq(|queries|, i requires 0 <= i < |queries| => NewTarget(Keyword(priority, queries[i]), HOME + queries[i],
              false))
  }

  function Cleared(t: Target): Target {
    t.(attempts := 0, attempted := false)
  }

  function Carried(targets: seq<Target>): seq<Target> {
    if targets == [] then []
    else
      var n := |targets| - 1;
      if targets[n].coverage.Unresolved? && targets[n].duplicateOf.None?
      then Carried(targets[..n]) + [Cleared(targets[n])] else Carried(targets[..n])
  }

  function Missing(targets: seq<Target>, keys: set<Key>): seq<Target> {
    if targets == [] then []
    else
      var n := |targets| - 1;
      if targets[n].key in keys then Missing(targets[..n], keys) else Missing(targets[..n], keys) + [targets[n]]
  }

  /** A new round: what was left unresolved under the same configuration, then the initial targets. */
  function FreshLane(previous: Option<Lane>, f: Fingerprint): Lane {
    var carried := if previous.Some? && previous.value.fingerprint == f then Carried(previous.value.targets) else [];
    Lane(f, carried + Missing(InitialTargets(f), KeysOf(carried)), 0, Ready,
         if previous.Some? then previous.value.generation + 1 else 1,
         if previous.Some? then previous.value.round + 1 else 1, 0)
  }

  /** The user's restart breaks off the target that was started. */
  function Interrupted(lane: Lane): Lane {
    if lane.cursor < |lane.targets| && lane.targets[lane.cursor].attempted
       && !lane.targets[lane.cursor].coverage.Complete?
    then Put(lane, lane.cursor, lane.targets[lane.cursor].(coverage := Unresolved))
    else lane
  }

  function Begun(lane: Lane): Lane
    requires lane.cursor < |lane.targets|
  {
    Put(lane, lane.cursor, lane.targets[lane.cursor].(attempted := true))
  }

  /** The keywords lane, with the old list a proper prefix of the new one. */
  predicate Extends(before: Fingerprint, f: Fingerprint) {
    && before.Queries? && f.Queries? && !before.priority && !f.priority && |before.queries| < |f.queries|
    && before.queries == f.queries[..|before.queries|]
  }

  /** Keywords appended to the configured list join the running round. */
  function AppendQueries(lane: Lane, f: Fingerprint): Lane
    requires Extends(lane.fingerprint, f)
  {
    var more := Missing(InitialTargets(f)[|lane.fingerprint.queries|..], KeysOf(lane.targets));
    var longer := lane.(targets := lane.targets + more, fingerprint := f);
    if (lane.status.Whole? || lane.status.Partial?) && lane.cursor < |longer.targets|
    then longer.(status := Waiting) else longer
  }

  /** A finished round comes again when refresh is on; unfinished coverage comes again regardless. */
  predicate WillRestart(lane: Lane, refresh: bool) {
    (lane.status.Whole? || lane.status.Partial?) && lane.targets != [] && (refresh || AnyUnresolved(lane.targets))
  }
}
