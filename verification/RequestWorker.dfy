/** The personal alert sender's tick around the store, proved to be a path of the run. */
module RequestWorker {
  import opened Basics
  import opened Paths
  import opened Ranking
  import opened Provider
  import opened RequestTables
  import opened RequestRun
  import Store = RequestStore

  ghost predicate Next(s: System, e: Event, t: System) {
    Enabled(s, e) && t == Step(s, e)
  }

  /** So what the worker leads to from a state of a run is a state of a run. */
  lemma StaysReachable(states: seq<System>, events: seq<Event>, t: System)
    requires Run(states, events) && Leads(Next, states[|events|], t)
    ensures exists longer, more :: Run(longer, more) && longer[|more|] == t
  {
    var longer, more := TraceLeads(Next, states, events, t);
    forall i | 0 <= i < |more| ensures Enabled(longer[i], more[i]) && longer[i + 1] == Step(longer[i], more[i]) {
      assert Next(longer[i], more[i], longer[i + 1]);
    }
    assert Run(longer, more);
  }

  /** A provider error before submission; unreachable: the code of a member who takes no DM. */
  datatype Fault = Fault(status: Option<nat>, unreachable: bool, delay: Time)

  /** The member's access, as the provider tells it. */
  datatype Access = Granted | Lost | Unverified(fault: Fault)

  datatype Opening = Opened(channel: nat) | Refused(fault: Fault)

  /** What one tick meets on its way; broken: an unexpected failure behind the answer. */
  datatype Script = Script(
    audited: bool, first: Access, stopping: bool, opening: Opening, second: Access, stopped: bool, rendered: bool,
    reply: Reply, broken: bool, messageId: nat, delay: Time)

  const UNVERIFIED_DELAY: Time := 30.0

  /** A definite error before submission: an unverified member is checked again, a destination that
      refuses fails the alert and is remembered, and anything temporary is tried again. */
  function AfterFault(db: Db, a: AlertId, t: Token, fault: Fault, checking: bool, now: Time): Db {
    if checking && fault.status != Some(429) then Retry(db, a, t, now, UNVERIFIED_DELAY).0
    else
      match fault.status
      case Some(404) => Settle(SetDm(db, a.user, NeedsTest, None), a, t, Failed, None).0
      case Some(403) =>
        Settle(if fault.unreachable then SetDm(db, a.user, Blocked, None) else db, a, t, Failed, None).0
      case Some(400) => Settle(db, a, t, Failed, None).0
      case Some(401) => Settle(db, a, t, Failed, None).0
      case _ => Retry(db, a, t, now, fault.delay).0
  }

  /** Access is proved lost. */
  function AfterLoss(db: Db, a: AlertId, t: Token, trials: bool): Db {
    if trials then Settle(db, a, t, Cancelled, None).0 else Revoke(db, a.user)
  }

  /** A failed access check: lost, unverified, or granted to an alert that is no longer wanted. */
  function AfterCheck(db: Db, a: AlertId, t: Token, access: Access, trials: bool, now: Time): Db {
    match access
    case Lost => AfterLoss(db, a, t, trials)
    case Unverified(fault) => AfterFault(db, a, t, fault, true, now)
    case Granted => Settle(db, a, t, Cancelled, None).0
  }

  /** No fault before submission makes an alert count as sent or as possibly sent, and none but a
      destination that refuses is remembered against the member. */
  lemma FaultNeverSends(db: Db, a: AlertId, t: Token, fault: Fault, checking: bool, now: Time)
    requires a in db.alerts && db.alerts[a].state.Leased? && db.alerts[a].token == Some(t)
    ensures var after := AfterFault(db, a, t, fault, checking, now);
            && a in after.alerts && (after.alerts[a].state.Pending? || after.alerts[a].state.Failed?)
            && (after.alerts[a].state.Pending? ==> after.alerts[a].token.None?) && after.requests == db.requests
            && (after.users != db.users ==> !checking && (fault.status == Some(404) || fault.status == Some(403)))
  {
    if !(checking && fault.status != Some(429)) {
      match fault.status {
        case Some(404) => NotedStays(db, a, NeedsTest);
        case Some(403) => NotedStays(db, a, Blocked);
        case _ =>
      }
    }
  }

  lemma NotedStays(db: Db, a: AlertId, status: DmStatus)
    ensures var noted := SetDm(db, a.user, status, None);
            noted.alerts == db.alerts && noted.requests == db.requests
  {
  }

  /** Losing access leaves the member no alert that could still be sent under this lease; without
      trials it leaves no watch either. */
  lemma LossSilences(db: Db, a: AlertId, t: Token, trials: bool)
    requires a in db.alerts && db.alerts[a].state.Leased? && db.alerts[a].token == Some(t)
    ensures var after := AfterLoss(db, a, t, trials);
            && a in after.alerts && after.alerts[a].state.Cancelled?
            && (!trials ==> Owned(after, a.user) == {})
            && (trials ==> after.requests == db.requests)
  {
  }

  class RequestWorker {
    const store: Store.RequestStore
    /** Without trials a member who lost access loses the watches too. */
    const trials: bool

    constructor (store: Store.RequestStore, trials: bool)
      ensures this.store == store && this.trials == trials
    {
      this.store, this.trials := store, trials;
    }

    /** The lease is given up for good. */
    method Abandon(a: AlertId, t: Token, state: AlertState, ghost s: System) returns (ghost u: System)
      requires store.Valid() && store.Tables() == s.db && (state.Failed? || state.Cancelled?)
      requires t in s.workers && s.workers[t] == Worker(a, Held)
      modifies store
      ensures store.Valid() && Leads(Next, s, u) && u.db == store.Tables() && u.workers == s.workers - {t}
              && u.posts == s.posts && u.db == Settle(s.db, a, t, state, None).0
    {
      var _, _ := store.SettleAlert(a, t, state, None);
      LeadsSelf(Next, s);
      u := Step(s, GiveUp(t, state));
      LeadsStep(Next, s, s, GiveUp(t, state), u);
    }

    /** The alert goes back to the queue. */
    method PutBack(a: AlertId, t: Token, delay: Time, now: Time, ghost s: System) returns (ghost u: System)
      requires store.Valid() && store.Tables() == s.db && s.now == now
      requires t in s.workers && s.workers[t].alert == a && !s.workers[t].stage.Replied?
      modifies store
      ensures store.Valid() && Leads(Next, s, u) && u.db == store.Tables() && u.workers == s.workers - {t}
              && u.posts == s.posts && u.db == Retry(s.db, a, t, now, delay).0
    {
      var _ := store.RetryAlert(a, t, now, delay);
      LeadsSelf(Next, s);
      u := Step(s, GiveBack(t, delay));
      LeadsStep(Next, s, s, GiveBack(t, delay), u);
    }

    /** A change of the member's DM state is a step of its own. */
    method NoteDm(user: UserId, status: DmStatus, channel: Option<nat>, ghost s: System) returns (ghost u: System)
      requires store.Valid() && store.Tables() == s.db
      modifies store
      ensures store.Valid() && Leads(Next, s, u) && u == s.(db := store.Tables())
      ensures store.Tables() == SetDm(s.db, user, status, channel)
    {
      store.SetDmStatus(user, status, channel);
      LeadsSelf(Next, s);
      u := Step(s, SetDmStatus(user, status, channel));
      LeadsStep(Next, s, s, SetDmStatus(user, status, channel), u);
    }

    /** A definite error before submission, by its phase and status. */
    method HandleFault(a: AlertId, t: Token, fault: Fault, checking: bool, now: Time, ghost s: System)
      returns (ghost u: System)
      requires store.Valid() && store.Tables() == s.db && s.now == now
      requires t in s.workers && s.workers[t] == Worker(a, Held)
      modifies store
      ensures store.Valid() && Leads(Next, s, u) && u.db == store.Tables() && u.workers == s.workers - {t}
              && u.posts == s.posts
      ensures store.Tables() == AfterFault(s.db, a, t, fault, checking, now)
    {
      if checking && fault.status != Some(429) {
        u := PutBack(a, t, UNVERIFIED_DELAY, now, s);
      } else if fault.status == Some(404) || (fault.status == Some(403) && fault.unreachable) {
        ghost var noted := NoteDm(a.user, if fault.status == Some(404) then NeedsTest else Blocked, None, s);
        u := Abandon(a, t, Failed, noted);
        LeadsJoin(Next, s, noted, u);
      } else if fault.status.Some? && fault.status.value in {400, 401, 403} {
        u := Abandon(a, t, Failed, s);
      } else {
        u := PutBack(a, t, fault.delay, now, s);
      }
    }

    /** Access is proved lost: the watches go, or with trials only this alert. */
    method LoseAccess(a: AlertId, t: Token, ghost s: System) returns (ghost u: System)
      requires store.Valid() && store.Tables() == s.db
      requires t in s.workers && s.workers[t] == Worker(a, Held)
      modifies store
      ensures store.Valid() && Leads(Next, s, u) && u.db == store.Tables() && u.workers == s.workers - {t}
              && u.posts == s.posts
      ensures store.Tables() == AfterLoss(s.db, a, t, trials)
    {
      if trials {
        u := Abandon(a, t, Cancelled, s);
      } else {
        store.RevokeUser(a.user);
        LeadsSelf(Next, s);
        ghost var revoked := Step(s, RevokeUser(a.user));
        LeadsStep(Next, s, s, RevokeUser(a.user), revoked);
        u := Step(revoked, Drop(t));
        LeadsStep(Next, s, revoked, Drop(t), u);
      }
    }

    /** One access check and one revalidation; the alert is still held when both pass. */
    method Check(a: AlertId, t: Token, access: Access, stopping: bool, now: Time, ghost s: System)
      returns (ok: bool, ghost u: System)
      requires store.Valid() && store.Tables() == s.db && s.now == now
      requires t in s.workers && s.workers[t] == Worker(a, Held)
      modifies store
      ensures store.Valid() && Leads(Next, s, u) && u.db == store.Tables() && u.posts == s.posts
      ensures if ok then u == s && access.Granted? && store.Validates(a, t, now)
              else u.workers == s.workers - {t} && store.Tables() == AfterCheck(s.db, a, t, access, trials, now)
    {
      ok := false;
      match access {
        case Lost => u := LoseAccess(a, t, s);
        case Unverified(fault) => u := HandleFault(a, t, fault, true, now, s);
        case Granted =>
          if stopping || !store.Validates(a, t, now) {
            u := Abandon(a, t, Cancelled, s);
          } else {
            ok, u := true, s;
            LeadsSelf(Next, s);
          }
      }
    }

    /** What the sender does with the answer to its product POST. */
    method ConcludeSend(a: AlertId, t: Token, reply: Reply, broken: bool, messageId: nat, delay: Time, now: Time)
      requires store.Valid()
      modifies store
      ensures store.Valid()
      ensures store.Tables() == if broken then Settle(old(store.Tables()), a, t, Review, None).0
                                else Concluded(old(store.Tables()), a, t, reply, now, messageId, delay)
    {
      if broken {
        var _, _ := store.SettleAlert(a, t, Review, None);
        return;
      }
      match ConclusionFor(reply) {
        case ConcludeSent => var _, _ := store.SettleAlert(a, t, Sent, Some(messageId));
        case ConcludeReview => var _, _ := store.SettleAlert(a, t, Review, None);
        case ConcludeFailed(dm) =>
          if dm.Some? { store.SetDmStatus(a.user, dm.value, None); }
          var _, _ := store.SettleAlert(a, t, Failed, None);
        case ConcludeRetry => var _ := store.RetryAlert(a, t, now, delay);
      }
    }

    /** Behind the durable commit: post, then settle. */
    method Post(a: AlertId, t: Token, script: Script, now: Time, ghost s: System) returns (ghost u: System)
      requires store.Valid() && store.Tables() == s.db && s.now == now
      requires t in s.workers && s.workers[t] == Worker(a, Committed)
      modifies store
      ensures store.Valid() && Leads(Next, s, u) && u.db == store.Tables() && u.workers == s.workers - {t}
      ensures u.posts == s.posts + [RequestRun.Post(a, t, script.reply)]
    {
      LeadsSelf(Next, s);
      ghost var sent := Step(s, Submit(t, script.reply));
      LeadsStep(Next, s, s, Submit(t, script.reply), sent);
      ghost var e := if script.broken then Doubt(t) else Conclude(t, script.messageId, script.delay);
      ConcludeSend(a, t, script.reply, script.broken, script.messageId, script.delay, now);
      u := Step(sent, e);
      LeadsStep(Next, s, sent, e, u);
    }

    /** Commit, render, post: nothing is posted that was not durably committed. */
    method Send(a: AlertId, t: Token, channel: Option<nat>, script: Script, now: Time, ghost s: System)
      returns (posted: bool, ghost u: System)
      requires store.Valid() && store.Tables() == s.db && s.now == now
      requires t in s.workers && s.workers[t] == Worker(a, Held)
      modifies store
      ensures store.Valid() && Leads(Next, s, u) && u.db == store.Tables() && u.workers == s.workers - {t}
      ensures u.posts == if posted then s.posts + [RequestRun.Post(a, t, script.reply)] else s.posts
      ensures posted <==> script.rendered && BeginSend(s.db, a, t, channel, now).1
    {
      var committed;
      committed, u := Commit(a, t, channel, now, s);
      posted := committed && script.rendered;
      if committed {
        ghost var begun := u;
        if script.rendered {
          u := Post(a, t, script, now, begun);
        } else {
          u := PutBack(a, t, UNVERIFIED_DELAY, now, begun);
        }
        LeadsJoin(Next, s, begun, u);
        assert begun.workers - {t} == s.workers - {t};
      }
    }

    /** The durable commit; a worker that lost its lease leaves. */
    method Commit(a: AlertId, t: Token, channel: Option<nat>, now: Time, ghost s: System)
      returns (committed: bool, ghost u: System)
      requires store.Valid() && store.Tables() == s.db && s.now == now
      requires t in s.workers && s.workers[t] == Worker(a, Held)
      modifies store
      ensures store.Valid() && Leads(Next, s, u) && u.db == store.Tables() && u.posts == s.posts && u.now == now
      ensures committed == BeginSend(s.db, a, t, channel, now).1
      ensures u.workers == if committed then s.workers[t := Worker(a, Committed)] else s.workers - {t}
    {
      u := Step(s, Begin(t, channel));
      LeadsSelf(Next, s);
      LeadsStep(Next, s, s, Begin(t, channel), u);
      committed := store.CommitSend(a, t, channel, now);
    }

    /** Open the private channel unless one is known. */
    method FindChannel(a: AlertId, t: Token, opening: Opening, now: Time, ghost s: System)
      returns (channel: Option<nat>, ghost u: System)
      requires store.Valid() && store.Tables() == s.db && s.now == now
      requires t in s.workers && s.workers[t] == Worker(a, Held)
      modifies store
      ensures store.Valid() && Leads(Next, s, u) && u.db == store.Tables() && u.posts == s.posts
      ensures channel.Some? ==> u.now == s.now
      ensures u.workers == if channel.Some? then s.workers else s.workers - {t}
      ensures var known := if a.user in s.db.users then s.db.users[a.user].channel else None;
              if known.Some? then channel == known && u == s
              else match opening
                   case Opened(address) =>
                     channel == Some(address) && u.db == SetDm(s.db, a.user, Ready, Some(address))
                   case Refused(fault) => channel.None? && u.db == AfterFault(s.db, a, t, fault, false, now)
    {
      LeadsSelf(Next, s);
      u := s;
      channel := if a.user in store.users then store.users[a.user].channel else None;
      if channel.Some? { return; }
      match opening {
        case Opened(address) =>
          channel := Some(address);
          u := NoteDm(a.user, Ready, channel, s);
        case Refused(fault) => u := HandleFault(a, t, fault, false, now, s);
      }
    }

    /** Everything after the claim. */
    method Pursue(a: AlertId, t: Token, script: Script, now: Time, ghost s: System)
      returns (posted: bool, ghost u: System)
      requires store.Valid() && store.Tables() == s.db && s.now == now
      requires t in s.workers && s.workers[t] == Worker(a, Held)
      modifies store
      ensures store.Valid() && Leads(Next, s, u) && u.db == store.Tables() && u.workers == s.workers - {t}
      ensures u.posts == if posted then s.posts + [RequestRun.Post(a, t, script.reply)] else s.posts
      ensures posted ==> script.audited && script.first.Granted? && script.second.Granted?
    {
      posted := false;
      if !script.audited {
        u := PutBack(a, t, UNVERIFIED_DELAY, now, s);
        return;
      }
      var ok;
      ok, u := Check(a, t, script.first, script.stopping, now, s);
      if !ok { return; }
      var channel;
      channel, u := FindChannel(a, t, script.opening, now, s);
      if channel.None? { return; }
      ghost var open := u;
      ok, u := Check(a, t, script.second, script.stopped, now, open);
      LeadsJoin(Next, s, open, u);
      if !ok { return; }
      posted, u := Send(a, t, channel, script, now, open);
      LeadsJoin(Next, s, open, u);
    }

    /** One tick: claim one alert and see it through; at most one product POST. */
    method Tick(script: Script, tokens: seq<Token>, now: Time, ghost s: System) returns (posted: bool, ghost u: System)
      requires store.Valid() && store.Tables() == s.db && s.now <= now
      requires |tokens| == 20 && Distinct(tokens) && (forall t | t in tokens :: t !in s.used)
              && s.workers.Keys <= s.used
      modifies store
      ensures store.Valid() && Leads(Next, s, u) && u.db == store.Tables() && u.workers == s.workers
      ensures |u.posts| == |s.posts| + (if posted then 1 else 0) && s.posts <= u.posts
    {
      var claimed;
      posted := false;
      claimed, u := TakeAlert(tokens, now, s);
      if claimed.Some? {
        ghost var held := u;
        posted, u := Pursue(claimed.value.0, claimed.value.1, script, now, held);
        LeadsJoin(Next, s, held, u);
      }
    }

    /** Lease the first due alert that still validates. */
    method TakeAlert(tokens: seq<Token>, now: Time, ghost s: System)
      returns (claimed: Option<(AlertId, Token)>, ghost held: System)
      requires store.Valid() && store.Tables() == s.db && s.now <= now
      requires |tokens| == 20 && Distinct(tokens) && (forall t | t in tokens :: t !in s.used)
              && s.workers.Keys <= s.used
      modifies store
      ensures store.Valid() && Leads(Next, s, held) && held.db == store.Tables() && held.now == now
      ensures held.posts == s.posts
      ensures claimed.None? ==> held.workers == s.workers
      ensures claimed.Some? ==>
                && claimed.value.1 in held.workers
                && held.workers[claimed.value.1] == Worker(claimed.value.0, Held)
                && held.workers - {claimed.value.1} == s.workers
    {
      ghost var rows;
      claimed, rows := store.Claim(now, tokens);
      held := AfterClaim(s, rows, tokens, now);
      ClaimLeads(s, rows, tokens, now);
      ClaimHolds(s, rows, tokens, now);
    }
  }

  lemma {:induction false} TokensInUse(db: Db, rows: seq<AlertId>, tokens: seq<Token>, now: Time)
    requires |tokens| >= |rows| && forall a | a in rows :: a in db.alerts
    ensures TryRows(db, rows, tokens[..|rows|], now) == TryRows(db, rows, tokens, now)
    decreases |rows|
  {
    if rows != [] {
      var leased := LeaseAlert(db, rows[0], tokens[0], now);
      if !Hydrates(leased, rows[0], now) {
        TokensInUse(CancelAlert(leased, rows[0]), rows[1..], tokens[1..], now);
        assert tokens[1..][..|rows[1..]|] == tokens[..|rows|][1..];
      }
    }
  }

  /** A claim as the store makes it, with the tokens it used. */
  ghost predicate ClaimMade(s: System, rows: seq<AlertId>, tokens: seq<Token>, now: Time) {
    && s.now <= now && |tokens| == 20 && Distinct(tokens) && (forall t | t in tokens :: t !in s.used)
    && s.workers.Keys <= s.used
    && TopOf(DueAlerts(Swept(s.db, now), now), 20, rows) && |rows| <= 20
    && forall a | a in rows :: a in Swept(s.db, now).alerts
  }

  /** The state behind the claim: one more worker, when a row was still valid. */
  ghost function AfterClaim(s: System, rows: seq<AlertId>, tokens: seq<Token>, now: Time): System
    requires ClaimMade(s, rows, tokens, now)
  {
    Claimed(s.(now := now), rows, tokens[..|rows|])
  }

  lemma ClaimLeads(s: System, rows: seq<AlertId>, tokens: seq<Token>, now: Time)
    requires ClaimMade(s, rows, tokens, now)
    ensures Leads(Next, s, AfterClaim(s, rows, tokens, now))
  {
    var ticked := s.(now := now);
    var few := tokens[..|rows|];
    LeadsSelf(Next, s);
    LeadsStep(Next, s, s, Event.Tick(now), ticked);
    ClaimIsEnabled(ticked, rows, tokens);
    LeadsStep(Next, s, ticked, Claim(rows, few), AfterClaim(s, rows, tokens, now));
  }

  lemma ClaimIsEnabled(s: System, rows: seq<AlertId>, tokens: seq<Token>)
    requires ClaimMade(s, rows, tokens, s.now)
    ensures Enabled(s, Claim(rows, tokens[..|rows|]))
  {
    var few := tokens[..|rows|];
    assert forall t | t in few :: t in tokens;
    assert ClaimRows(Swept(s.db, s.now), s.now, rows, few, s.used);
  }

  /** Adding the worker of the leased row, from the outcome of the rows alone. */
  lemma HolderJoins(s: System, db: Db, rows: seq<AlertId>, tokens: seq<Token>, n: nat)
    requires |tokens| >= |rows| && n <= |rows| && forall t | t in tokens :: t !in s.workers
    ensures var few := tokens[..|rows|];
            var workers := if n < |rows| then s.workers[few[n] := Worker(rows[n], Held)] else s.workers;
            && (n == |rows| ==> workers == s.workers)
            && (n < |rows| ==> tokens[n] in workers && workers[tokens[n]] == Worker(rows[n], Held)
                               && workers - {tokens[n]} == s.workers)
  {
    if n < |rows| { assert tokens[n] in tokens; }
  }

  lemma ClaimHolds(s: System, rows: seq<AlertId>, tokens: seq<Token>, now: Time)
    requires ClaimMade(s, rows, tokens, now)
    ensures var (db, n) := TryRows(Swept(s.db, now), rows, tokens, now);
            var held := AfterClaim(s, rows, tokens, now);
            && held.db == db && held.now == now && held.posts == s.posts
            && (n == |rows| ==> held.workers == s.workers)
            && (n < |rows| ==> tokens[n] in held.workers && held.workers[tokens[n]] == Worker(rows[n], Held)
                               && held.workers - {tokens[n]} == s.workers)
  {
    var (db, n) := TryRows(Swept(s.db, now), rows, tokens, now);
    AfterClaimIs(s, rows, tokens, now);
    assert forall t | t in tokens :: t !in s.workers;
    HolderJoins(s, db, rows, tokens, n);
  }

  lemma AfterClaimIs(s: System, rows: seq<AlertId>, tokens: seq<Token>, now: Time)
    requires |tokens| >= |rows| && forall a | a in rows :: a in Swept(s.db, now).alerts
    ensures var (db, n) := TryRows(Swept(s.db, now), rows, tokens, now);
            var few := tokens[..|rows|]; var held := Claimed(s.(now := now), rows, few);
            && held.db == db && held.now == now && held.posts == s.posts
            && held.workers == if n < |rows| then s.workers[few[n] := Worker(rows[n], Held)] else s.workers
  {
    TokensInUse(Swept(s.db, now), rows, tokens, now);
  }
}
