/** What holds of every run of the reward ledger. */
module ReferralTheorems {
  import opened Basics
  import P = Paths
  import opened ReferralTables
  import opened ReferralInvariant
  import opened ReferralRun

  ghost predicate Run(states: seq<System>, events: seq<Event>) {
    Trace(states, events) && states[0] == START
  }

  lemma StepKeepsStore(s: System, e: Event)
    requires StoreInv(s.db) && Enabled(s, e)
    ensures StoreInv(Step(s, e).db)
  {
    match e
    case Enrol(d) => EnsureProfileKeeps(s.db, d);
    case BindAccount(d, w) => BindKeeps(s.db, d, w);
    case CreditSale(referrer, referee, payment, m, refereeDiscord) =>
      CreditKeeps(s.db, referrer, referee, payment, m, refereeDiscord, s.now);
    case VoidSale(id, reason) => VoidKeeps(s.db, id, reason);
    case FlagReward(id, reason) => FlagKeeps(s.db, id, reason);
    case Claim(d, m, id, t, until, fingerprint) => ClaimKeeps(s.db, d, id, m, t, until, fingerprint);
    case PromoFails(t, reason, guarded) => ReleaseKeeps(s.db, s.workers[t].id, t, reason, guarded);
    case Mark(t) =>
      MarkSubmissionKeeps(s.db, s.workers[t].id, t, s.now);
      ReleaseKeeps(s.db, s.workers[t].id, t, "preparation_retry", true);
    case SettleApply(t, promo, reason) =>
      MarkAppliedKeeps(s.db, s.workers[t].id, t, promo);
      ReleaseKeeps(s.db, s.workers[t].id, t, reason, false);
    case Recover(id) => ReleaseKeeps(s.db, id, s.db.rewards[id].token.value, "preparation_recovered", true);
    case CheckWindow(k) => FlagKeeps(s.db, s.replays[k].id, "application_reconciliation");
    case Confirm(id, promo) => ReconcileKeeps(s.db, id, WasApplied(promo));
    case Consume(id, payment, m) => MarkUsedKeeps(s.db, id, payment, m);
    case _ =>
  }

  lemma {:induction false} RunKeeps(states: seq<System>, events: seq<Event>, i: nat)
    requires Run(states, events) && i < |states|
    ensures StoreInv(states[i].db) && SysInv(states[i])
  {
    if i > 0 {
      RunKeeps(states, events, i - 1);
      StepKeepsStore(states[i - 1], events[i - 1]);
      StepKeeps(states[i - 1], events[i - 1]);
    }
  }

  lemma RunPosts(states: seq<System>, events: seq<Event>, k: nat)
    requires Run(states, events) && k < |events|
    ensures states[k].posts <= states[k + 1].posts
  {
    RunKeeps(states, events, k);
    StepKeeps(states[k], events[k]);
  }

  lemma PostsGrow(states: seq<System>, events: seq<Event>, i: nat, j: nat)
    requires Run(states, events) && i <= j < |states|
    ensures states[i].posts <= states[j].posts
  {
    var histories := seq(|states|, k requires 0 <= k < |states| => states[k].posts);
    forall k | 0 <= k < |histories| - 1 ensures histories[k] <= histories[k + 1] {
      RunPosts(states, events, k);
    }
    P.PrefixChain(histories, i, j);
    assert histories[i] == states[i].posts && histories[j] == states[j].posts;
  }

  /** Once an apply POST may have been accepted, its reward never returns to pending and keeps the
      very application that was posted. */
  lemma AcceptedNeverPending(states: seq<System>, events: seq<Event>, n: nat, m: nat, i: nat)
    requires Run(states, events) && n <= m < |states| && i < |states[n].posts|
    requires MayBeAccepted(states[n].posts[i].answer)
    ensures var p := states[n].posts[i];
            && p.id in states[m].db.rewards
            && var r := states[m].db.rewards[p.id];
            && !r.state.Pending? && !r.state.Void?
            && r.intent == Some(p.intent) && r.membership == Some(p.intent.membership)
            && r.fingerprint == p.fingerprint && r.submitted.Some?
  {
    PostsGrow(states, events, n, m);
    RunKeeps(states, events, m);
    var p := states[n].posts[i];
    assert states[m].posts[i] == p;
    assert PostAnchored(states[m].db, p);
  }

  /** Every later apply POST of that reward repeats the intent key, membership and credential,
      decided inside the replay window that opened with the first submission. */
  lemma LaterAppliesRepeat(states: seq<System>, events: seq<Event>, n: nat, i: nat, j: nat)
    requires Run(states, events) && n < |states| && i < j < |states[n].posts|
    requires states[n].posts[i].id == states[n].posts[j].id && MayBeAccepted(states[n].posts[i].answer)
    ensures states[n].posts[j].intent == states[n].posts[i].intent
    ensures states[n].posts[j].fingerprint == states[n].posts[i].fingerprint
    ensures states[n].posts[j].decided - states[n].posts[i].at < 86340.0
  {
    RunKeeps(states, events, n);
    assert Repeats(states[n].posts[i], states[n].posts[j]);
  }

  // ---------------------------------------------------------------- what rows never lose

  /** Bindings are final and rewards keep their referrer. */
  ghost predicate IdentitiesStay(a: Db, b: Db) {
    && (forall d | d in a.profiles :: d in b.profiles && (a.profiles[d].whop.Some? ==> b.profiles[d] == a.profiles[d]))
    && (forall id | id in a.rewards :: id in b.rewards && b.rewards[id].referrer == a.rewards[id].referrer)
  }

  ghost predicate GenerationsGrow(a: Db, b: Db) {
    forall id | id in a.rewards :: id in b.rewards && a.rewards[id].generation <= b.rewards[id].generation
  }

  lemma CreditStays(db: Db, referrer: DiscordId, referee: WhopId, payment: PaymentId, m: MembershipId,
                    refereeDiscord: Option<DiscordId>, now: Time)
    ensures var next := Credit(db, referrer, referee, payment, m, refereeDiscord, now).0;
            IdentitiesStay(db, next) && GenerationsGrow(db, next)
  {
    if CreditOutcome(db, referrer, referee, payment, refereeDiscord).New? && referee in db.rewards {
      assert IsPrevious(db, referee, referee, payment);
    }
  }

  /** A rewritten row keeps its referrer and does not forget a generation. */
  lemma PutStays(db: Db, id: WhopId, r: Reward)
    requires id in db.rewards && r.referrer == db.rewards[id].referrer && r.generation >= db.rewards[id].generation
    ensures IdentitiesStay(db, Put(db, id, r)) && GenerationsGrow(db, Put(db, id, r))
  {
  }

  ghost predicate Stays(a: Db, b: Db) {
    IdentitiesStay(a, b) && GenerationsGrow(a, b)
  }

  lemma ReleaseStays(db: Db, id: WhopId, t: Token, reason: string, guarded: bool)
    ensures Stays(db, Release(db, id, t, reason, guarded).0)
  {
    if Release(db, id, t, reason, guarded).1 { PutStays(db, id, BackToPending(db.rewards[id], reason)); }
  }

  lemma MarkStays(db: Db, id: WhopId, t: Token, now: Time)
    ensures Stays(db, MarkSubmission(db, id, t, now).0)
  {
  }

  lemma SaveStays(db: Db, id: WhopId, promo: PromoId)
    requires id in db.rewards
    ensures Stays(db, SaveApplied(db, id, promo).0)
  {
  }

  lemma SettledStays(db: Db, id: WhopId, t: Token, answer: Answer, promo: PromoId, reason: string)
    ensures Stays(db, Settled(db, id, t, answer, promo, reason))
  {
    ReleaseStays(db, id, t, reason, false);
    if id in db.rewards { SaveStays(db, id, promo); }
  }

  lemma FlagStays(db: Db, id: WhopId, reason: string)
    ensures Stays(db, Flag(db, id, reason).0)
  {
  }

  lemma ConfirmStays(db: Db, id: WhopId, promo: PromoId)
    ensures Stays(db, Reconcile(db, id, WasApplied(promo)).0)
  {
    if id in db.rewards { SaveStays(db, id, promo); }
  }

  lemma ConsumeStays(db: Db, id: WhopId, payment: PaymentId, m: MembershipId)
    ensures Stays(db, MarkUsed(db, id, payment, m).0)
  {
  }

  lemma VoidStays(db: Db, id: WhopId, reason: string)
    ensures Stays(db, VoidReward(db, id, reason).0)
  {
  }

  lemma LedgerStays(s: System, e: Event)
    requires Enabled(s, e) && OnLedger(e)
    ensures Stays(s.db, Step(s, e).db)
  {
    match e {
      case Enrol(_) =>
      case BindAccount(_, _) =>
      case CreditSale(referrer, referee, payment, m, refereeDiscord) =>
        CreditStays(s.db, referrer, referee, payment, m, refereeDiscord, s.now);
      case VoidSale(id, reason) => VoidStays(s.db, id, reason);
      case FlagReward(id, reason) => FlagStays(s.db, id, reason);
      case Confirm(id, promo) => ConfirmStays(s.db, id, promo);
      case Consume(id, payment, m) => ConsumeStays(s.db, id, payment, m);
    }
  }

  lemma WorkerStays(s: System, e: Event)
    requires Enabled(s, e) && (e.Claim? || OnWorkers(e))
    ensures Stays(s.db, Step(s, e).db)
  {
    match e {
      case Claim(_, m, id, t, until, fingerprint) =>
        PutStays(s.db, id, Leased(s.db.rewards[id], id, m, t, until, fingerprint));
      case PromoFails(t, reason, guarded) => ReleaseStays(s.db, s.workers[t].id, t, reason, guarded);
      case Mark(t) =>
        MarkStays(s.db, s.workers[t].id, t, s.now);
        ReleaseStays(s.db, s.workers[t].id, t, "preparation_retry", true);
      case SettleApply(t, promo, reason) =>
        SettledStays(s.db, s.workers[t].id, t, s.workers[t].stage.answer, promo, reason);
      case Recover(id) => ReleaseStays(s.db, id, s.db.rewards[id].token.value, "preparation_recovered", true);
      case CheckWindow(k) => FlagStays(s.db, s.replays[k].id, "application_reconciliation");
    }
  }

  /** Events that change a reward's row on behalf of a worker. */
  predicate OnWorkers(e: Event) {
    e.PromoFails? || e.Mark? || e.SettleApply? || e.Recover? || e.CheckWindow?
  }

  lemma StepStays(s: System, e: Event)
    requires Enabled(s, e)
    ensures Stays(s.db, Step(s, e).db)
  {
    if e.Claim? || OnWorkers(e) {
      WorkerStays(s, e);
    } else if OnLedger(e) {
      LedgerStays(s, e);
    }
  }

  // ---------------------------------------------------------------- released preparations

  /** Tokens may leave rows, but only a claim puts one in. */
  ghost predicate TokensOnlyLeave(a: Db, b: Db) {
    forall id | id in a.rewards ::
      id in b.rewards && (b.rewards[id].token == a.rewards[id].token || b.rewards[id].token.None?)
  }

  lemma ReleaseTokens(db: Db, id: WhopId, t: Token, reason: string, guarded: bool)
    ensures TokensOnlyLeave(db, Release(db, id, t, reason, guarded).0)
  {
  }

  lemma MarkTokens(db: Db, id: WhopId, t: Token, now: Time)
    ensures TokensOnlyLeave(db, MarkSubmission(db, id, t, now).0)
  {
  }

  lemma SettledTokens(db: Db, id: WhopId, t: Token, answer: Answer, promo: PromoId, reason: string)
    ensures TokensOnlyLeave(db, Settled(db, id, t, answer, promo, reason))
  {
    ReleaseTokens(db, id, t, reason, false);
  }

  lemma SteadyTokens(a: Db, b: Db)
    requires Steady(a, b)
    ensures TokensOnlyLeave(a, b)
  {
  }

  lemma WorkerTokens(s: System, e: Event)
    requires Enabled(s, e) && OnWorkers(e)
    ensures TokensOnlyLeave(s.db, Step(s, e).db)
  {
    match e {
      case PromoFails(t, reason, guarded) => ReleaseTokens(s.db, s.workers[t].id, t, reason, guarded);
      case Mark(t) =>
        MarkTokens(s.db, s.workers[t].id, t, s.now);
        ReleaseTokens(s.db, s.workers[t].id, t, "preparation_retry", true);
      case SettleApply(t, promo, reason) =>
        SettledTokens(s.db, s.workers[t].id, t, s.workers[t].stage.answer, promo, reason);
      case Recover(id) => ReleaseTokens(s.db, id, s.db.rewards[id].token.value, "preparation_recovered", true);
      case CheckWindow(k) =>
        FlagSteady(s.db, s.replays[k].id, "application_reconciliation");
        SteadyTokens(s.db, Flag(s.db, s.replays[k].id, "application_reconciliation").0);
    }
  }

  lemma StepTokens(s: System, e: Event)
    requires StoreInv(s.db) && Enabled(s, e) && !e.Claim?
    ensures TokensOnlyLeave(s.db, Step(s, e).db)
  {
    if OnWorkers(e) {
      WorkerTokens(s, e);
    } else if OnLedger(e) {
      LedgerSteady(s, e);
      SteadyTokens(s.db, Step(s, e).db);
    }
  }

  lemma TokenStaysGone(s: System, e: Event, id: WhopId, t: Token)
    requires StoreInv(s.db) && Enabled(s, e) && t in s.used
    requires id in s.db.rewards && s.db.rewards[id].token != Some(t)
    ensures var next := Step(s, e); t in next.used && id in next.db.rewards && next.db.rewards[id].token != Some(t)
  {
    StepUses(s, e);
    if e.Claim? {
      assert e.t != t;
    } else {
      StepTokens(s, e);
    }
  }

  lemma StepUses(s: System, e: Event)
    requires Enabled(s, e)
    ensures s.used <= Step(s, e).used
  {
  }

  /** A preparation whose lease was recovered can never cross the submission boundary. */
  lemma {:induction false} RecoveredCannotSubmit(states: seq<System>, events: seq<Event>, n: nat, m: nat,
                                                 id: WhopId, t: Token, now: Time)
    requires Run(states, events) && n <= m < |states| && t in states[n].used
    requires id in states[n].db.rewards && states[n].db.rewards[id].token != Some(t)
    ensures id in states[m].db.rewards && states[m].db.rewards[id].token != Some(t) && t in states[m].used
    ensures MarkSubmission(states[m].db, id, t, now) == (states[m].db, false)
    decreases m - n
  {
    if n < m {
      RecoveredCannotSubmit(states, events, n, m - 1, id, t, now);
      RunKeeps(states, events, m - 1);
      TokenStaysGone(states[m - 1], events[m - 1], id, t);
    }
  }

  /** Recovery does take the lease away from a preparation that still holds it. */
  lemma RecoveryTakesToken(s: System, id: WhopId)
    requires SysInv(s) && Enabled(s, Recover(id))
    ensures var next := Step(s, Recover(id));
            && next.db.rewards[id].token.None? && next.db.rewards[id].state.Pending?
            && s.db.rewards[id].token.value in next.used
  {
    assert s.db.rewards[id].token.value in s.used;
  }

  // ---------------------------------------------------------------- intents

  /** Intents are issued with generations that only grow, and the row remembers the last one. */
  ghost predicate IssuedOk(s: System) {
    && (forall x | x in s.issued :: x.reward in s.db.rewards && x.generation <= s.db.rewards[x.reward].generation)
    && (forall i, j | 0 <= i < j < |s.issued| && s.issued[i].reward == s.issued[j].reward ::
          s.issued[i].generation < s.issued[j].generation)
  }

  lemma ClaimIssues(s: System, e: Event)
    requires IssuedOk(s) && e.Claim? && Enabled(s, e)
    ensures IssuedOk(Step(s, e)) && s.issued <= Step(s, e).issued
  {
    var next := Step(s, e);
    var x := Intent(e.id, e.m, s.db.rewards[e.id].generation + 1);
    assert next.issued == s.issued + [x];
    forall y | y in next.issued
      ensures y.reward in next.db.rewards && y.generation <= next.db.rewards[y.reward].generation
    {
      assert y in s.issued || y == x;
    }
    forall i, j | 0 <= i < j < |next.issued| && next.issued[i].reward == next.issued[j].reward
      ensures next.issued[i].generation < next.issued[j].generation
    {
      assert next.issued[i] == s.issued[i] && s.issued[i] in s.issued;
    }
  }

  lemma StepIssues(s: System, e: Event)
    requires IssuedOk(s) && Enabled(s, e)
    ensures IssuedOk(Step(s, e)) && s.issued <= Step(s, e).issued
  {
    if e.Claim? {
      ClaimIssues(s, e);
    } else {
      StepStays(s, e);
      assert Step(s, e).issued == s.issued;
    }
  }

  lemma {:induction false} RunIssues(states: seq<System>, events: seq<Event>, i: nat)
    requires Run(states, events) && i < |states|
    ensures IssuedOk(states[i])
  {
    if i > 0 {
      RunIssues(states, events, i - 1);
      StepIssues(states[i - 1], events[i - 1]);
    }
  }

  /** Application generations strictly increase, so intent keys never repeat. */
  lemma IntentsNeverRepeat(states: seq<System>, events: seq<Event>, n: nat, i: nat, j: nat)
    requires Run(states, events) && n < |states| && i < j < |states[n].issued|
    ensures states[n].issued[i] != states[n].issued[j]
    ensures states[n].issued[i].reward == states[n].issued[j].reward
            ==> states[n].issued[i].generation < states[n].issued[j].generation
  {
    RunIssues(states, events, n);
  }

  // ---------------------------------------------------------------- self referrals

  /** The referrer is bound, and not to the referred account. */
  ghost predicate Genuine(db: Db, id: WhopId) {
    && id in db.rewards && db.rewards[id].referrer in db.profiles
    && db.profiles[db.rewards[id].referrer].whop.Some?
    && db.profiles[db.rewards[id].referrer].whop.value != id
  }

  ghost predicate PostsGenuine(s: System) {
    forall p | p in s.posts :: Genuine(s.db, p.id)
  }

  lemma GenuineStays(a: Db, b: Db, id: WhopId)
    requires Genuine(a, id) && IdentitiesStay(a, b)
    ensures Genuine(b, id)
  {
  }

  /** The reward that a submission or a replay posts for. */
  ghost function PostedFor(s: System, e: Event): WhopId
    requires Enabled(s, e) && (e.Submit? || e.Repeat?)
  {
    if e.Submit? then s.workers[e.t].id else s.replays[e.k].id
  }

  lemma NewPosts(s: System, e: Event)
    requires Enabled(s, e)
    ensures forall p | p in Step(s, e).posts :: p in s.posts || ((e.Submit? || e.Repeat?) && p.id == PostedFor(s, e))
  {
  }

  /** A new post is for a row whose application was prepared for a genuine referral. */
  lemma NewPostGenuine(s: System, e: Event)
    requires StoreInv(s.db) && SysInv(s) && Enabled(s, e) && (e.Submit? || e.Repeat?)
    ensures Genuine(s.db, PostedFor(s, e))
  {
    var id := PostedFor(s, e);
    if e.Submit? {
      assert WorkerOk(s, e.t, s.workers[e.t]);
    } else {
      assert ReplayOk(s, s.replays[e.k]);
    }
    assert RowOk(s.db, id, s.db.rewards[id]);
  }

  lemma StepGenuine(s: System, e: Event)
    requires PostsGenuine(s) && StoreInv(s.db) && SysInv(s) && Enabled(s, e)
    ensures PostsGenuine(Step(s, e))
  {
    StepStays(s, e);
    NewPosts(s, e);
    if e.Submit? || e.Repeat? { NewPostGenuine(s, e); }
    PostsStayGenuine(s.db, Step(s, e), s.posts, if e.Submit? || e.Repeat? then {PostedFor(s, e)} else {});
  }

  lemma PostsStayGenuine(db: Db, next: System, posts: seq<Post>, more: set<WhopId>)
    requires IdentitiesStay(db, next.db) && (forall p | p in posts :: Genuine(db, p.id))
    requires (forall id | id in more :: Genuine(db, id)) && forall p | p in next.posts :: p in posts || p.id in more
    ensures PostsGenuine(next)
  {
    forall p | p in next.posts ensures Genuine(next.db, p.id) {
      GenuineStays(db, next.db, p.id);
    }
  }

  lemma {:induction false} RunGenuine(states: seq<System>, events: seq<Event>, i: nat)
    requires Run(states, events) && i < |states|
    ensures PostsGenuine(states[i])
  {
    if i > 0 {
      RunGenuine(states, events, i - 1);
      RunKeeps(states, events, i - 1);
      StepGenuine(states[i - 1], events[i - 1]);
    }
  }

  lemma IdentitiesTrans(a: Db, b: Db, c: Db)
    requires IdentitiesStay(a, b) && IdentitiesStay(b, c)
    ensures IdentitiesStay(a, c)
  {
  }

  lemma BindingsStay(states: seq<System>, events: seq<Event>, k: nat)
    requires Run(states, events) && k < |events|
    ensures IdentitiesStay(states[k].db, states[k + 1].db)
  {
    StepStays(states[k], events[k]);
  }

  lemma {:induction false} BindingsLast(states: seq<System>, events: seq<Event>, n: nat, m: nat)
    requires Run(states, events) && n <= m < |states|
    ensures IdentitiesStay(states[n].db, states[m].db)
    decreases m - n
  {
    if n < m {
      BindingsLast(states, events, n, m - 1);
      BindingsStay(states, events, m - 1);
      IdentitiesTrans(states[n].db, states[m - 1].db, states[m].db);
    }
  }

  /** Whichever came first, credit or binding: a reward whose referee is ever the referrer's own
      account has no membership at any time, is never applied or used, and no POST ever names it. */
  lemma SelfReferralNeverPaid(states: seq<System>, events: seq<Event>, n: nat, m: nat, id: WhopId)
    requires Run(states, events) && n < |states| && m < |states|
    requires id in states[n].db.rewards && states[n].db.rewards[id].referrer in states[n].db.profiles
    requires states[n].db.profiles[states[n].db.rewards[id].referrer].whop == Some(id)
    ensures id in states[m].db.rewards ==>
              var r := states[m].db.rewards[id];
              r.membership.None? && !r.state.Applying? && !r.state.Applied? && !r.state.Used?
    ensures forall p | p in states[m].posts :: p.id != id
  {
    RunKeeps(states, events, m);
    RunGenuine(states, events, m);
    if m < n { BindingsLast(states, events, m, n); } else { BindingsLast(states, events, n, m); }
    if id in states[m].db.rewards { assert RowOk(states[m].db, id, states[m].db.rewards[id]); }
    forall p | p in states[m].posts ensures p.id != id {
      assert Genuine(states[m].db, p.id);
    }
  }

  /** At most one reward per referrer and per membership is outstanding; a promo is attached to one
      reward and an invoice consumes one reward. */
  lemma OneOutstanding(states: seq<System>, events: seq<Event>, n: nat, i: WhopId, j: WhopId)
    requires Run(states, events) && n < |states| && i != j
    requires i in states[n].db.rewards && j in states[n].db.rewards
    ensures var r := states[n].db.rewards[i]; var q := states[n].db.rewards[j];
            && (r.Outstanding() && q.Outstanding() ==> r.referrer != q.referrer && r.membership != q.membership)
            && (r.promo.Some? ==> r.promo != q.promo)
            && (r.usedPayment.Some? ==> r.usedPayment != q.usedPayment)
  {
    RunKeeps(states, events, n);
    assert PairOk(states[n].db.rewards[i], states[n].db.rewards[j]);
  }

  /** Used and void are final. */
  lemma {:induction false} ConsumedIsFinal(states: seq<System>, events: seq<Event>, n: nat, m: nat, id: WhopId)
    requires Run(states, events) && n <= m < |states| && id in states[n].db.rewards
    requires states[n].db.rewards[id].state.Used? || states[n].db.rewards[id].state.Void?
    ensures id in states[m].db.rewards && states[m].db.rewards[id].state == states[n].db.rewards[id].state
    ensures states[m].db.rewards[id].usedPayment == states[n].db.rewards[id].usedPayment
    decreases m - n
  {
    if n < m {
      ConsumedIsFinal(states, events, n, m - 1, id);
      FinalStep(states[m - 1], events[m - 1], id);
    }
  }

  ghost predicate SameOutcome(a: Db, b: Db, id: WhopId) {
    && id in a.rewards && id in b.rewards
    && b.rewards[id].state == a.rewards[id].state && b.rewards[id].usedPayment == a.rewards[id].usedPayment
  }

  ghost predicate Finished(db: Db, id: WhopId) {
    id in db.rewards && (db.rewards[id].state.Used? || db.rewards[id].state.Void?)
  }

  lemma WorkersSpareFinished(db: Db, id: WhopId, o: WhopId, t: Token, answer: Answer, promo: PromoId,
                             reason: string, guarded: bool, now: Time)
    requires Finished(db, id)
    ensures SameOutcome(db, Release(db, o, t, reason, guarded).0, id)
    ensures SameOutcome(db, MarkSubmission(db, o, t, now).0, id)
    ensures SameOutcome(db, Settled(db, o, t, answer, promo, reason), id)
  {
  }

  lemma LedgerSparesFinished(s: System, e: Event, id: WhopId)
    requires Finished(s.db, id) && Enabled(s, e)
    requires e.BindAccount? || e.CreditSale? || e.VoidSale? || e.FlagReward? || e.Claim? || e.CheckWindow?
             || e.Confirm? || e.Consume?
    ensures SameOutcome(s.db, Step(s, e).db, id)
  {
    if e.CreditSale? { NewIsNew(s.db, e.referrer, e.referee, e.payment, e.refereeDiscord); }
  }

  lemma FinalStep(s: System, e: Event, id: WhopId)
    requires Finished(s.db, id) && Enabled(s, e)
    ensures SameOutcome(s.db, Step(s, e).db, id)
  {
    match e
    case PromoFails(t, reason, guarded) =>
      WorkersSpareFinished(s.db, id, s.workers[t].id, t, NotSent, 0, reason, guarded, s.now);
    case Mark(t) =>
      WorkersSpareFinished(s.db, id, s.workers[t].id, t, NotSent, 0, "preparation_retry", true, s.now);
    case SettleApply(t, promo, reason) =>
      WorkersSpareFinished(s.db, id, s.workers[t].id, t, s.workers[t].stage.answer, promo, reason, true, s.now);
    case Recover(o) =>
      WorkersSpareFinished(s.db, id, o, s.db.rewards[o].token.value, NotSent, 0, "preparation_recovered", true, s.now);
    case BindAccount(_, _) => LedgerSparesFinished(s, e, id);
    case CreditSale(_, _, _, _, _) => LedgerSparesFinished(s, e, id);
    case VoidSale(_, _) => LedgerSparesFinished(s, e, id);
    case FlagReward(_, _) => LedgerSparesFinished(s, e, id);
    case Claim(_, _, _, _, _, _) => LedgerSparesFinished(s, e, id);
    case CheckWindow(_) => LedgerSparesFinished(s, e, id);
    case Confirm(_, _) => LedgerSparesFinished(s, e, id);
    case Consume(_, _, _) => LedgerSparesFinished(s, e, id);
    case _ =>
  }

  /** The histories the theorems speak of hold every apply POST and every intent issued: a first
      submission and a replay append what they carry, a claim appends the intent on its row. */
  lemma HistoryTold(s: System, e: Event)
    requires Enabled(s, e)
    ensures var next := Step(s, e);
            && (if e.Submit? then
                  var w := s.workers[e.t];
                  next.posts == s.posts + [Post(w.id, w.intent, w.fingerprint, w.stage.at, s.now, e.answer)]
                else if e.Repeat? then
                  var r := s.replays[e.k];
                  next.posts == s.posts + [Post(r.id, r.intent, r.fingerprint, r.decided.value, s.now, e.answer)]
                else next.posts == s.posts)
            && (if e.Claim? then
                  e.id in next.db.rewards && next.db.rewards[e.id].intent != None
                  && next.issued == s.issued + [next.db.rewards[e.id].intent.value]
                else next.issued == s.issued)
  {
  }
}
