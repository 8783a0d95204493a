/** The ledger told on its rows: which reward a claim pays, when each operation succeeds, and what it
    leaves. */
module ReferralMeaning {
  import opened Basics
  import opened Ranking
  import opened ReferralTables

  /** A pending reward of the member's own, not for the member's own account. */
  predicate MayBePaid(db: Db, d: DiscordId, id: WhopId) {
    && id in db.rewards && db.rewards[id].referrer == d && db.rewards[id].state == Pending
    && !(d in db.profiles && db.profiles[d].whop == Some(id))
  }

  /** Recorded earlier: by time, and at one time by row. */
  predicate Earlier(db: Db, a: WhopId, b: WhopId)
    requires a in db.rewards && b in db.rewards
  {
    || db.rewards[a].created < db.rewards[b].created
    || (db.rewards[a].created == db.rewards[b].created && db.rewards[a].row < db.rewards[b].row)
  }

  /** The oldest reward that may be paid. */
  predicate OldestPayable(db: Db, d: DiscordId, id: WhopId) {
    MayBePaid(db, d, id) && forall o | o in db.rewards && MayBePaid(db, d, o) :: !Earlier(db, o, id)
  }

  /** The claim's query returns exactly such a reward. */
  lemma PaysOldest(db: Db, d: DiscordId, id: WhopId)
    requires d in db.profiles
    ensures Lowest(Payable(db, d), id) <==> OldestPayable(db, d, id)
    ensures Payable(db, d) != map[] <==> exists o :: MayBePaid(db, d, o)
  {
    var ranks := Payable(db, d);
    forall o ensures o in ranks <==> MayBePaid(db, d, o) {}
    if id in ranks {
      forall o | o in ranks ensures Less(ranks[o], ranks[id]) <==> Earlier(db, o, id) {}
    }
    if o :| MayBePaid(db, d, o) { assert o in ranks; }
  }

  // ---------------------------------------------------------------- operations

  /** Only this reward may differ, and nothing else in the ledger. */
  ghost predicate OnlyReward(a: Db, b: Db, id: WhopId) {
    && b.profiles == a.profiles && b.nextRow == a.nextRow && b.rewards.Keys == a.rewards.Keys
    && forall o | o in a.rewards && o != id :: b.rewards[o] == a.rewards[o]
  }

  /** What a reward keeps for life. */
  predicate SameSale(r: Reward, q: Reward) {
    && q.referrer == r.referrer && q.refereeDiscord == r.refereeDiscord && q.payment == r.payment
    && q.refereeMembership == r.refereeMembership && q.created == r.created && q.row == r.row
  }

  predicate SameClaim(r: Reward, q: Reward) {
    q.intent == r.intent && q.generation == r.generation && q.fingerprint == r.fingerprint
  }

  /** An account is bound to one profile at most and a profile to one account for good; a reward for the
      member's own account that is neither used nor void becomes an exception. */
  lemma BindTold(db: Db, d: DiscordId, w: WhopId)
    ensures var (next, ok) := Bind(db, d, w);
            && (ok <==> d in db.profiles && db.profiles[d].whop in {None, Some(w)}
                        && forall o | o in db.profiles && db.profiles[o].whop == Some(w) :: o == d)
            && (!ok ==> next == db)
            && (ok ==>
                  && next.profiles == db.profiles[d := Profile(Some(w))] && next.nextRow == db.nextRow
                  && next.rewards.Keys == db.rewards.Keys
                  && forall id | id in db.rewards ::
                       next.rewards[id]
                       == if id == w && db.rewards[id].referrer == d && db.rewards[id].state !in {Used, Void}
                          then db.rewards[id].(state := Exception, reason := Some("self_referral")) else db.rewards[id])
  {
  }

  /** A sale is credited to an enrolled member who is not the friend, by account or by Discord; a friend
      or a payment already on record counts as done only when it is the same member's same friend. */
  lemma CreditTold(db: Db, referrer: DiscordId, referee: WhopId, payment: PaymentId, m: MembershipId,
                   refereeDiscord: Option<DiscordId>, now: Time)
    ensures var (next, outcome) := Credit(db, referrer, referee, payment, m, refereeDiscord, now);
            var entitled := referrer in db.profiles && db.profiles[referrer].whop != Some(referee)
                            && refereeDiscord != Some(referrer);
            var known := exists id :: id in db.rewards && (id == referee || db.rewards[id].payment == payment);
            var same := forall id | id in db.rewards && (id == referee || db.rewards[id].payment == payment) ::
                          id == referee && db.rewards[id].referrer == referrer;
            && (outcome == New <==> entitled && !known) && (outcome == Already <==> entitled && known && same)
            && (outcome != New ==> next == db)
            && (outcome == New ==>
                  && next.profiles == db.profiles && next.nextRow == db.nextRow + 1
                  && next.rewards.Keys == db.rewards.Keys + {referee}
                  && (forall o | o in db.rewards :: next.rewards[o] == db.rewards[o])
                  && FreshReward(next.rewards[referee], referrer, refereeDiscord, payment, m, now, db.nextRow))
  {
    if id :| id in db.rewards && (id == referee || db.rewards[id].payment == payment) {
      assert IsPrevious(db, id, referee, payment);
    }
  }

  predicate FreshReward(r: Reward, referrer: DiscordId, refereeDiscord: Option<DiscordId>, payment: PaymentId,
                        m: MembershipId, now: Time, row: nat)
  {
    && r.referrer == referrer && r.refereeDiscord == refereeDiscord && r.payment == payment
    && r.refereeMembership == m && r.created == now && r.row == row && r.state == Pending
    && r.membership == None && r.token == None && r.leaseUntil == None && r.intent == None && r.generation == 0
    && r.fingerprint == None && r.submitted == None && r.promo == None && r.usedPayment == None && r.reason == None
  }

  /** A member with an account may claim while none of the member's rewards, and none on that
      membership, is under way. */
  lemma MayClaimTold(db: Db, d: DiscordId, m: MembershipId)
    ensures MayClaim(db, d, m) <==>
            d in db.profiles && db.profiles[d].whop != None
            && forall id | id in db.rewards && db.rewards[id].membership != None
                           && db.rewards[id].state in {Applying, Applied, Exception} ::
                 db.rewards[id].referrer != d && db.rewards[id].membership != Some(m)
  {
  }

  /** A claimed reward is leased under a new intent, with no submission on it yet. */
  lemma ClaimTold(db: Db, id: WhopId, m: MembershipId, token: Token, until: Time, fingerprint: Option<Fingerprint>)
    requires id in db.rewards
    ensures var next := ClaimReward(db, id, m, token, until, fingerprint); var r, q := db.rewards[id], next.rewards[id];
            && OnlyReward(db, next, id) && SameSale(r, q)
            && q.state == Applying && q.membership == Some(m) && q.token == Some(token) && q.leaseUntil == Some(until)
            && q.generation == r.generation + 1 && q.intent == Some(Intent(id, m, r.generation + 1))
            && q.fingerprint == fingerprint && q.submitted == None && q.reason == None
            && q.promo == r.promo && q.usedPayment == r.usedPayment
  {
  }

  /** The holder is whoever has the token of an application under way. */
  predicate HeldBy(db: Db, id: WhopId, token: Token) {
    id in db.rewards && db.rewards[id].token == Some(token) && db.rewards[id].state in {Applying, Applied}
  }

  /** The submission mark is set once, by the holder while applying. */
  lemma MarkTold(db: Db, id: WhopId, token: Token, now: Time)
    ensures var (next, ok) := MarkSubmission(db, id, token, now);
            && (ok <==> HeldBy(db, id, token) && db.rewards[id].state == Applying)
            && (!ok ==> next == db)
            && (ok ==>
                  && OnlyReward(db, next, id)
                  && next.rewards[id] == db.rewards[id].(submitted := next.rewards[id].submitted)
                  && next.rewards[id].submitted == if db.rewards[id].submitted == None then Some(now)
                                                   else db.rewards[id].submitted)
  {
  }

  /** A promo is recorded by the holder unless another reward has it or another promo is recorded. */
  lemma AppliedTold(db: Db, id: WhopId, token: Token, promo: PromoId)
    ensures var (next, ok) := MarkApplied(db, id, token, promo);
            && (ok <==> HeldBy(db, id, token)
                        && (db.rewards[id].state == Applied ==> db.rewards[id].promo == Some(promo))
                        && forall o | o in db.rewards && db.rewards[o].promo == Some(promo) :: o == id)
            && (!ok ==> next == db)
            && (ok ==> OnlyReward(db, next, id) && RecordedAs(db.rewards[id], next.rewards[id], promo))
  {
  }

  predicate RecordedAs(r: Reward, q: Reward, promo: PromoId) {
    && SameSale(r, q) && SameClaim(r, q) && q.state == Applied && q.promo == Some(promo)
    && q.leaseUntil == None && q.reason == None && q.membership == r.membership && q.token == r.token
    && q.submitted == r.submitted && q.usedPayment == r.usedPayment
  }

  /** Free to be claimed again: nothing of the application is left but its intent and credential. */
  predicate Reopened(r: Reward, q: Reward, reason: string) {
    && SameSale(r, q) && SameClaim(r, q) && q.state == Pending && q.membership == None && q.token == None
    && q.leaseUntil == None && q.promo == None && q.submitted == None && q.reason == Some(reason)
    && q.usedPayment == r.usedPayment
  }

  lemma ReleaseTold(db: Db, id: WhopId, token: Token, reason: string, unsubmittedOnly: bool)
    ensures var (next, ok) := Release(db, id, token, reason, unsubmittedOnly);
            && (ok <==> HeldBy(db, id, token) && db.rewards[id].state == Applying
                        && (unsubmittedOnly ==> db.rewards[id].submitted == None))
            && (!ok ==> next == db)
            && (ok ==> OnlyReward(db, next, id) && Reopened(db.rewards[id], next.rewards[id], reason))
  {
  }

  /** Flagging sets a known reward aside for review, with all it carries; a consumed or void one only
      gets the reason. */
  lemma FlagTold(db: Db, id: WhopId, reason: string)
    ensures var (next, ok) := Flag(db, id, reason);
            && (ok <==> id in db.rewards) && (!ok ==> next == db)
            && (ok ==>
                  && OnlyReward(db, next, id)
                  && next.rewards[id] == db.rewards[id].(state := next.rewards[id].state, reason := Some(reason))
                  && next.rewards[id].state == if db.rewards[id].state in {Used, Void} then db.rewards[id].state
                                               else Exception)
  {
  }

  /** Evidence settles an application under way or under review, except a self referral: an attached
      promo records it, unless another is recorded, it is another reward's, or no membership is; a
      confirmed absence frees it, unless it is recorded as applied; no answer changes nothing. */
  lemma ReconcileTold(db: Db, id: WhopId, evidence: Evidence)
    ensures var (next, ok) := Reconcile(db, id, evidence);
            var settles := id in db.rewards && db.rewards[id].state in {Applying, Applied, Exception}
                           && db.rewards[id].reason != Some("self_referral");
            && (!ok ==> next == db)
            && match evidence
               case WasApplied(promo) =>
                 && (ok <==> settles && db.rewards[id].membership != None
                             && db.rewards[id].promo in {None, Some(promo)}
                             && forall o | o in db.rewards && db.rewards[o].promo == Some(promo) :: o == id)
                 && (ok ==> OnlyReward(db, next, id) && RecordedAs(db.rewards[id], next.rewards[id], promo))
               case NotApplied =>
                 && (ok <==> settles && db.rewards[id].state != Applied)
                 && (ok ==> OnlyReward(db, next, id)
                            && Reopened(db.rewards[id], next.rewards[id], "confirmed_not_applied"))
               case NoAnswer => (ok <==> settles) && next == db
  {
  }

  /** A recorded application is consumed once, on its own membership, by a payment that consumed nothing
      else; the same payment again is no error. */
  lemma UsedTold(db: Db, id: WhopId, payment: PaymentId, m: MembershipId)
    ensures var (next, ok) := MarkUsed(db, id, payment, m);
            var mine := id in db.rewards && db.rewards[id].membership == Some(m);
            && (ok <==> mine && ((db.rewards[id].state == Used && db.rewards[id].usedPayment == Some(payment))
                                 || (db.rewards[id].state == Applied
                                     && forall o | o in db.rewards :: db.rewards[o].usedPayment != Some(payment))))
            && (!ok || db.rewards[id].state == Used ==> next == db)
            && (ok && db.rewards[id].state == Applied ==>
                  OnlyReward(db, next, id)
                  && next.rewards[id]
                     == db.rewards[id].(state := Used, usedPayment := Some(payment), reason := None))
  {
  }

  lemma VoidTold(db: Db, id: WhopId, reason: string)
    ensures var (next, ok) := VoidReward(db, id, reason);
            && (ok <==> id in db.rewards && db.rewards[id].state in {Pending, Void}) && (!ok ==> next == db)
            && (ok ==> OnlyReward(db, next, id)
                       && next.rewards[id] == db.rewards[id].(state := Void, reason := Some(reason)))
  {
  }
}
