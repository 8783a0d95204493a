/** The polling worker's two procedures around the ledger, each proved to be a path of the run:
    what the theorems say of every run therefore holds of this code. */
module ReferralService {
  import opened Basics
  import opened Paths
  import opened ReferralTables
  import opened ReferralInvariant
  import opened ReferralRun
  import opened Ranking
  import opened ReferralLedger
  import opened ReferralTheorems

  const LEASE: Time := 60.0

  datatype PromoAnswer = PromoReady(promo: PromoId) | PromoRefused(code: string) | PromoUnusable

  /** What the provider's lists say about one reward's application. */
  datatype Findings = Findings(
    promo: Option<PromoId>, attached: bool, matching: Option<(PaymentId, MembershipId)>, eligible: bool)

  /** One step of the run. */
  ghost predicate Next(s: System, e: Event, t: System) {
    Enabled(s, e) && t == Step(s, e)
  }

  /** So what the worker leads to from a state of a run is a state of a run. */
  lemma StaysReachable(states: seq<System>, events: seq<Event>, t: System)
    requires Run(states, events) && Leads(Next, states[|events|], t)
    ensures exists longer, more :: Run(longer, more) && longer[|more|] == t
  {
    var longer, more := TraceLeads(Next, states, events, t);
    forall i | 0 <= i < |more| ensures Enabled(longer[i], more[i]) && longer[i + 1] == Step(longer[i], more[i]) {
      assert Next(longer[i], more[i], longer[i + 1]);
    }
    assert Run(longer, more);
  }

  class ReferralService {
    const store: ReferralStore

    constructor (store: ReferralStore)
      ensures this.store == store
    {
      this.store := store;
    }

    /** What the submitter does with its answer: confirm, hold, or release a definite refusal. */
    method Conclude(id: WhopId, token: Token, answer: Answer, promo: PromoId, reason: string)
      requires store.Valid()
      modifies store
      ensures store.Valid() && store.Tables() == Settled(old(store.Tables()), id, token, answer, promo, reason)
    {
      match answer {
        case Confirmed => var _ := store.MarkApplied(id, token, promo);
        case Mismatched =>
        case Failed(code, inProgress) =>
          if !(code >= 500 || 300 <= code < 400 || inProgress) {
            var _ := store.ReleaseReward(id, token, reason, false);
          }
        case Broken(submitted) =>
          if !submitted { var _ := store.ReleaseReward(id, token, reason, false); }
        case NotSent => var _ := store.ReleaseReward(id, token, reason, false);
      }
    }

    /** Behind the durable mark: post, then settle. */
    method Send(id: WhopId, token: Token, answer: Answer, promo: PromoId, reason: string, postAt: Time,
                ghost s: System) returns (ghost t: System)
      requires store.Valid() && store.Tables() == s.db && s.now <= postAt
      requires token in s.workers && s.workers[token].id == id && s.workers[token].stage.Marked?
      modifies store
      ensures store.Valid() && Leads(Next, s, t) && t.db == store.Tables() && t.workers == s.workers - {token}
      ensures exists p :: t.posts == s.posts + [p] && p.id == id && p.answer == answer
    {
      LeadsSelf(Next, s);
      ghost var ready := Step(s, Tick(postAt));
      LeadsStep(Next, s, s, Tick(postAt), ready);
      ghost var answered := Step(ready, Submit(token, answer));
      LeadsStep(Next, s, ready, Submit(token, answer), answered);
      Conclude(id, token, answer, promo, reason);
      t := Step(answered, SettleApply(token, promo, reason));
      LeadsStep(Next, s, answered, SettleApply(token, promo, reason), t);
    }

    /** Prepare the promo, mark the boundary durably, and only then send. */
    method Prepare(id: WhopId, token: Token, promo: PromoAnswer, answer: Answer, reason: string,
                   markAt: Time, postAt: Time, ghost s: System) returns (posted: bool, ghost t: System)
      requires store.Valid() && store.Tables() == s.db && s.now <= markAt <= postAt
      requires token in s.workers && s.workers[token].id == id && s.workers[token].stage.Preparing?
      modifies store
      ensures store.Valid() && Leads(Next, s, t) && t.db == store.Tables() && t.workers == s.workers - {token}
      ensures posted <==> promo.PromoReady? && MarkSubmission(s.db, id, token, markAt).1
      ensures if posted then exists p :: t.posts == s.posts + [p] && p.id == id && p.answer == answer
              else t.posts == s.posts
    {
      if !promo.PromoReady? {
        posted := false;
        t := Abandon(id, token, promo, s);
        return;
      }
      posted, t := MarkBoundary(id, token, markAt, s);
      if posted {
        ghost var marked := t;
        t := Send(id, token, answer, promo.promo, reason, postAt, marked);
        LeadsJoin(Next, s, marked, t);
        assert marked.workers - {token} == s.workers - {token};
      }
    }

    /** The promo cannot be had: the reward goes back. */
    method Abandon(id: WhopId, token: Token, promo: PromoAnswer, ghost s: System) returns (ghost t: System)
      requires store.Valid() && store.Tables() == s.db && !promo.PromoReady?
      requires token in s.workers && s.workers[token].id == id && s.workers[token].stage.Preparing?
      modifies store
      ensures store.Valid() && Leads(Next, s, t) && t.db == store.Tables()
      ensures t.workers == s.workers - {token} && t.posts == s.posts
    {
      var code := if promo.PromoRefused? then promo.code else "preparation_retry";
      t := Step(s, PromoFails(token, code, promo.PromoUnusable?));
      LeadsSelf(Next, s);
      LeadsStep(Next, s, s, PromoFails(token, code, promo.PromoUnusable?), t);
      var _ := store.ReleaseReward(id, token, code, promo.PromoUnusable?);
    }

    /** The durable mark; without it the preparation is given back. */
    method MarkBoundary(id: WhopId, token: Token, markAt: Time, ghost s: System) returns (marked: bool, ghost t: System)
      requires store.Valid() && store.Tables() == s.db && s.now <= markAt
      requires token in s.workers && s.workers[token].id == id && s.workers[token].stage.Preparing?
      modifies store
      ensures store.Valid() && Leads(Next, s, t) && t.db == store.Tables() && t.posts == s.posts && t.now == markAt
      ensures marked == MarkSubmission(s.db, id, token, markAt).1
      ensures t.workers == if marked then s.workers[token := s.workers[token].(stage := Marked(markAt))]
                           else s.workers - {token}
    {
      ghost var ready := s.(now := markAt);
      LeadsSelf(Next, s);
      LeadsStep(Next, s, s, Tick(markAt), ready);
      t := Step(ready, Mark(token));
      LeadsStep(Next, s, ready, Mark(token), t);
      marked := store.MarkSubmission(id, token, markAt);
      if !marked {
        var _ := store.ReleaseReward(id, token, "preparation_retry", true);
      }
    }

    /** A leased reward: a self referral is flagged, any other one is prepared. */
    method Pursue(id: WhopId, user: WhopId, token: Token, promo: PromoAnswer, answer: Answer, reason: string,
                  markAt: Time, postAt: Time, ghost s: System) returns (posted: bool, ghost t: System)
      requires store.Valid() && store.Tables() == s.db && s.now <= markAt <= postAt
      requires token in s.workers && s.workers[token].id == id && s.workers[token].stage.Preparing?
      modifies store
      ensures store.Valid() && Leads(Next, s, t) && t.db == store.Tables() && t.workers == s.workers - {token}
      ensures if posted then exists p :: t.posts == s.posts + [p] && p.id == id != user && p.answer == answer
              else t.posts == s.posts
    {
      if id == user {
        posted := false;
        LeadsSelf(Next, s);
        var _ := store.FlagException(id, SELF_REFERRAL);
        ghost var flagged := Step(s, FlagReward(id, SELF_REFERRAL));
        LeadsStep(Next, s, s, FlagReward(id, SELF_REFERRAL), flagged);
        t := Step(flagged, DropWorker(token));
        LeadsStep(Next, s, flagged, DropWorker(token), t);
      } else {
        posted, t := Prepare(id, token, promo, answer, reason, markAt, postAt, s);
      }
    }

    /** One member's turn: lease the oldest payable reward and see it through. */
    method Apply(d: DiscordId, m: MembershipId, user: WhopId, token: Token, credential: Option<Fingerprint>,
                 promo: PromoAnswer, answer: Answer, reason: string,
                 claimAt: Time, markAt: Time, postAt: Time, ghost s: System)
      returns (posted: bool, ghost t: System)
      requires store.Valid() && store.Tables() == s.db && s.workers.Keys <= s.used && token !in s.used
      requires s.now <= claimAt <= markAt <= postAt
      modifies store
      ensures store.Valid() && Leads(Next, s, t) && t.db == store.Tables() && t.workers == s.workers
      ensures if posted then exists p :: t.posts == s.posts + [p] && p.id != user && p.answer == answer
              else t.posts == s.posts
    {
      var claimed := store.ClaimReward(d, m, token, claimAt + LEASE, credential);
      if claimed.None? {
        posted, t := false, s;
        LeadsSelf(Next, s);
        return;
      }
      ghost var held := Held(s, d, m, claimed.value, token, credential, claimAt);
      posted, t := Pursue(claimed.value, user, token, promo, answer, reason, markAt, postAt, held);
      LeadsJoin(Next, s, held, t);
    }

    /** Replay an ambiguous application, or put it before a human once that is no longer safe. */
    method Replay(id: WhopId, credential: Option<Fingerprint>, promo: PromoId, eligible: bool, answer: Answer,
                  now: Time, postAt: Time, ghost k: nat, ghost s: System) returns (posted: bool, ghost t: System)
      requires store.Valid() && store.Tables() == s.db && s.now == now <= postAt && k !in s.replays
              && NoneInFlight(s, id)
      requires id in s.db.rewards && s.db.rewards[id].state.Applying? && s.db.rewards[id].submitted.Some?
      modifies store
      ensures store.Valid() && Leads(Next, s, t) && t.db == store.Tables()
      ensures t.workers == s.workers && t.replays == s.replays
      ensures posted <==> eligible && Replayable(s.db.rewards[id], credential, s.now)
      ensures if posted then exists p :: t.posts == s.posts + [p] && p.id == id && p.answer == answer
              else t.posts == s.posts
      ensures !Replayable(s.db.rewards[id], credential, now) ==>
                t.db == Flag(s.db, id, "application_reconciliation").0 && t.db.rewards[id].state.Exception?
      ensures Replayable(s.db.rewards[id], credential, now) ==>
                t.db == if posted && answer.Confirmed? then Reconcile(s.db, id, WasApplied(promo)).0 else s.db
    {
      var r := store.rewards[id];
      posted := eligible && Replayable(r, credential, now);
      if !Replayable(r, credential, now) {
        var _ := store.FlagException(id, "application_reconciliation");
        LeadsSelf(Next, s);
        t := Step(s, FlagReward(id, "application_reconciliation"));
        LeadsStep(Next, s, s, FlagReward(id, "application_reconciliation"), t);
      } else if !eligible {
        LeadsSelf(Next, s);
        t := s;
      } else {
        assert RowOk(s.db, id, r);
        ghost var sent := Repeated(s, id, k, credential.value, answer, postAt);
        t := sent;
        if answer.Confirmed? {
          var _ := store.ReconcileApplication(id, WasApplied(promo));
          t := Step(sent, Confirm(id, promo));
          LeadsStep(Next, s, sent, Confirm(id, promo), t);
        }
      }
    }

    /** An attached or consumed discount confirms the application. */
    method ConfirmAttached(id: WhopId, promo: PromoId, due: bool, ghost s: System) returns (ok: bool, ghost t: System)
      requires store.Valid() && store.Tables() == s.db && id in s.db.rewards
      modifies store
      ensures store.Valid() && Leads(Next, s, t) && t == s.(db := store.Tables())
      ensures (t.db, ok) == Attached(s.db, id, promo, due)
    {
      LeadsSelf(Next, s);
      t := s;
      ok := true;
      if due {
        ok := store.ReconcileApplication(id, WasApplied(promo));
        t := Step(s, Confirm(id, promo));
        LeadsStep(Next, s, s, Confirm(id, promo), t);
      }
    }

    /** A purchase that used the discount consumes the reward; a reversal stays marked. */
    method ConsumeMatch(id: WhopId, payment: PaymentId, m: MembershipId, reversed: bool, ghost s: System)
      returns (ok: bool, ghost t: System)
      requires store.Valid() && store.Tables() == s.db && id in s.db.rewards
      modifies store
      ensures store.Valid() && Leads(Next, s, t) && t == s.(db := store.Tables())
      ensures (t.db, ok) == Consumed(s.db, id, payment, m, reversed)
    {
      LeadsSelf(Next, s);
      ok := store.MarkUsed(id, payment, m);
      t := Step(s, Consume(id, payment, m));
      LeadsStep(Next, s, s, Consume(id, payment, m), t);
      if ok && reversed {
        ghost var used := t;
        var _ := store.FlagException(id, REVERSED);
        t := Step(used, FlagReward(id, REVERSED));
        LeadsStep(Next, s, used, FlagReward(id, REVERSED), t);
      }
    }

    /** Provider evidence of an attached or consumed discount settles the application. */
    method Acknowledge(id: WhopId, e: Findings, ghost s: System) returns (ok: bool, ghost t: System)
      requires store.Valid() && store.Tables() == s.db && id in s.db.rewards && e.promo.Some?
      modifies store
      ensures store.Valid() && Leads(Next, s, t) && t == s.(db := store.Tables())
      ensures (t.db, ok) == Acknowledged(s.db, id, e)
    {
      var r := store.rewards[id];
      var due := EvidenceDue(r, e);
      if due && r.reason == Some(REVERSED) && e.matching.None? {
        ok, t := true, s;
        LeadsSelf(Next, s);
        return;
      }
      ok, t := ConfirmAttached(id, e.promo.value, due, s);
      if ok && e.matching.Some? {
        ghost var confirmed := t;
        ok, t := ConsumeMatch(id, e.matching.value.0, e.matching.value.1, r.reason == Some(REVERSED), confirmed);
        LeadsJoin(Next, s, confirmed, t);
      }
    }

    /** One unresolved reward: recover a stale preparation, accept evidence, or replay. */
    method ReconcileReward(id: WhopId, e: Findings, credential: Option<Fingerprint>, answer: Answer, now: Time,
                           postAt: Time, ghost k: nat, ghost s: System)
      returns (ok: bool, posted: bool, ghost t: System)
      requires store.Valid() && store.Tables() == s.db && s.now == now <= postAt
      requires k !in s.replays && NoneInFlight(s, id) && id in s.db.rewards
      modifies store
      ensures store.Valid() && Leads(Next, s, t) && t.db == store.Tables()
      ensures t.workers == s.workers && t.replays == s.replays
      ensures posted ==> Replayable(s.db.rewards[id], credential, now)
      ensures if posted then exists p :: t.posts == s.posts + [p] && p.id == id && p.answer == answer
              else t.posts == s.posts
    {
      var r := store.rewards[id];
      ok, posted, t := true, false, s;
      LeadsSelf(Next, s);
      if !(r.state.Applying? || r.state.Applied? || r.state.Exception?) || r.reason == Some(SELF_REFERRAL) {
        return;
      }
      assert RowOk(s.db, id, r);
      if r.state.Applying? && r.submitted.None? && r.leaseUntil.value <= now {
        ok := store.ReleaseReward(id, r.token.value, "preparation_recovered", true);
        t := Step(s, Recover(id));
        LeadsStep(Next, s, s, Recover(id), t);
      } else if e.promo.None? {
      } else if r.state.Applying? && r.submitted.Some? && !e.attached && e.matching.None? {
        posted, t := Replay(id, credential, e.promo.value, e.eligible, answer, now, postAt, k, s);
      } else {
        ok, t := Acknowledge(id, e, s);
      }
    }
  }

  const REVERSED := "purchase_reversed"

  predicate EvidenceDue(r: Reward, e: Findings) {
    (r.state.Applying? || r.state.Exception?) && (e.attached || e.matching.Some?)
  }

  function Attached(db: Db, id: WhopId, promo: PromoId, due: bool): (result: (Db, bool))
    requires id in db.rewards
    ensures id in result.0.rewards
  {
    if due then Reconcile(db, id, WasApplied(promo)) else (db, true)
  }

  function Consumed(db: Db, id: WhopId, payment: PaymentId, m: MembershipId, reversed: bool): (Db, bool) {
    var (used, taken) := MarkUsed(db, id, payment, m);
    if taken && reversed then (Flag(used, id, REVERSED).0, true) else (used, taken)
  }

  /** Evidence that the discount is attached confirms the application; a purchase that used it consumes
      the reward. A reversed purchase keeps its mark, and without a use it stays with its reviewer. */
  function Acknowledged(db: Db, id: WhopId, e: Findings): (Db, bool)
    requires id in db.rewards && e.promo.Some?
  {
    var r := db.rewards[id];
    if EvidenceDue(r, e) && r.reason == Some(REVERSED) && e.matching.None? then (db, true)
    else
      var (confirmed, ok) := Attached(db, id, e.promo.value, EvidenceDue(r, e));
      if ok && e.matching.Some?
      then Consumed(confirmed, id, e.matching.value.0, e.matching.value.1, r.reason == Some(REVERSED))
      else (confirmed, ok)
  }

  /** One reward's row, or nothing, has changed. */
  ghost predicate Touches(a: Db, b: Db, id: WhopId) {
    && id in b.rewards && (forall o | o in a.rewards && o != id :: o in b.rewards && b.rewards[o] == a.rewards[o])
  }

  lemma AttachTouches(db: Db, id: WhopId, promo: PromoId, due: bool)
    requires id in db.rewards
    ensures var after := Attached(db, id, promo, due).0;
            Touches(db, after, id) && after.rewards[id].usedPayment == db.rewards[id].usedPayment
  {
  }

  lemma ConsumeTouches(db: Db, id: WhopId, payment: PaymentId, m: MembershipId, reversed: bool)
    requires id in db.rewards
    ensures var (after, ok) := Consumed(db, id, payment, m, reversed);
            && Touches(db, after, id)
            && (after.rewards[id].usedPayment == db.rewards[id].usedPayment
                || after.rewards[id].usedPayment == Some(payment))
            && (ok ==> after.rewards[id].state.Used? && after.rewards[id].usedPayment == Some(payment)
                       && after.rewards[id].membership == Some(m)
                       && (reversed ==> after.rewards[id].reason == Some(REVERSED)))
  {
  }

  /** Evidence never touches another reward, and consumes this one only for the purchase it names. */
  lemma EvidenceIsOwn(db: Db, id: WhopId, e: Findings)
    requires id in db.rewards && e.promo.Some?
    ensures var after := Acknowledged(db, id, e).0;
            && Touches(db, after, id)
            && (after.rewards[id].usedPayment != db.rewards[id].usedPayment ==>
                  e.matching.Some? && after.rewards[id].usedPayment == Some(e.matching.value.0))
  {
    var r := db.rewards[id];
    AttachTouches(db, id, e.promo.value, EvidenceDue(r, e));
    if e.matching.Some? {
      ConsumeTouches(Attached(db, id, e.promo.value, EvidenceDue(r, e)).0, id, e.matching.value.0, e.matching.value.1,
                     r.reason == Some(REVERSED));
    }
  }

  /** What a purchase with the discount leads to: a consumed reward, its reversal still marked. */
  lemma EvidenceConsumes(db: Db, id: WhopId, e: Findings)
    requires id in db.rewards && e.promo.Some? && e.matching.Some? && Acknowledged(db, id, e).1
    ensures var after := Acknowledged(db, id, e).0;
            && id in after.rewards && after.rewards[id].state.Used?
            && after.rewards[id].membership == Some(e.matching.value.1)
            && after.rewards[id].usedPayment == Some(e.matching.value.0)
            && (db.rewards[id].reason == Some(REVERSED) ==> after.rewards[id].reason == Some(REVERSED))
  {
    var r := db.rewards[id];
    ConsumeTouches(Attached(db, id, e.promo.value, EvidenceDue(r, e)).0, id, e.matching.value.0, e.matching.value.1,
                   r.reason == Some(REVERSED));
  }

  /** What an attached discount alone leads to: a confirmed application, unless it was reversed. */
  lemma EvidenceConfirms(db: Db, id: WhopId, e: Findings)
    requires id in db.rewards && e.promo.Some? && e.attached && e.matching.None? && Acknowledged(db, id, e).1
    requires db.rewards[id].state.Applying? || db.rewards[id].state.Exception?
    ensures var after := Acknowledged(db, id, e).0;
            if db.rewards[id].reason == Some(REVERSED) then after == db
            else id in after.rewards && after.rewards[id].state.Applied? && after.rewards[id].promo == e.promo
  {
  }

  /** The same credential may repeat the identical request inside the provider's replay window. */
  predicate Replayable(r: Reward, credential: Option<Fingerprint>, now: Time) {
    && r.fingerprint.Some? && r.fingerprint == credential
    && r.submitted.Some? && 0.0 <= now - r.submitted.value < REPLAY_WINDOW
  }

  /** One event of the run behind a path. */
  lemma OneMore(s: System, t: System, e: Event, u: System)
    requires Leads(Next, s, t) && Enabled(t, e) && u == Step(t, e)
    ensures Leads(Next, s, u)
  {
    LeadsStep(Next, s, t, e, u);
  }

  /** Reading an application back and deciding, in time, to repeat it. */
  lemma Decided(s: System, id: WhopId, k: nat, credential: Fingerprint) returns (t: System)
    requires k !in s.replays && NoneInFlight(s, id)
    requires id in s.db.rewards && s.db.rewards[id].state.Applying? && s.db.rewards[id].intent.Some?
    requires Replayable(s.db.rewards[id], Some(credential), s.now)
    ensures Leads(Next, s, t) && k in t.replays && t == s.(replays := s.replays[k := t.replays[k]])
    ensures t.replays[k].id == id && t.replays[k].decided.Some?
  {
    LeadsSelf(Next, s);
    var read := Step(s, ReadBack(k, id, credential));
    OneMore(s, s, ReadBack(k, id, credential), read);
    t := Step(read, CheckWindow(k));
    OneMore(s, read, CheckWindow(k), t);
  }

  /** The state behind a replay's POST. */
  lemma Repeated(s: System, id: WhopId, k: nat, credential: Fingerprint, answer: Answer, at: Time)
    returns (t: System)
    requires k !in s.replays && NoneInFlight(s, id) && s.now <= at
    requires id in s.db.rewards && s.db.rewards[id].state.Applying? && s.db.rewards[id].intent.Some?
    requires Replayable(s.db.rewards[id], Some(credential), s.now)
    ensures Leads(Next, s, t) && t.db == s.db && t.workers == s.workers && t.replays == s.replays
    ensures exists p :: t.posts == s.posts + [p] && p.id == id && p.answer == answer
  {
    var decided := Decided(s, id, k, credential);
    var ready := decided.(now := at);
    OneMore(s, decided, Tick(at), ready);
    t := Step(ready, Repeat(k, answer));
    OneMore(s, ready, Repeat(k, answer), t);
    assert decided.replays - {k} == s.replays;
  }

  /** The state in which the claimed reward's worker begins. */
  lemma Held(s: System, d: DiscordId, m: MembershipId, id: WhopId, token: Token, credential: Option<Fingerprint>,
             at: Time)
    returns (held: System)
    requires s.now <= at && token !in s.used && s.workers.Keys <= s.used
    requires MayClaim(s.db, d, m) && Lowest(Payable(s.db, d), id)
    ensures Leads(Next, s, held) && held.now == at && held.posts == s.posts
    ensures held.db == ReferralTables.ClaimReward(s.db, id, m, token, at + LEASE, credential)
    ensures token in held.workers && held.workers[token].id == id && held.workers[token].stage.Preparing?
    ensures held.workers - {token} == s.workers
  {
    var ready := s.(now := at);
    var e := Claim(d, m, id, token, at + LEASE, credential);
    LeadsSelf(Next, s);
    OneMore(s, s, Tick(at), ready);
    held := Step(ready, e);
    OneMore(s, ready, e, held);
  }
}
