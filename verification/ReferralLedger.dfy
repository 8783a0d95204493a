/** The reward ledger as it runs: profiles and rewards updated in place, each method proved against
    its transaction. */
module ReferralLedger {
  import opened Basics
  import opened Ranking
  import opened ReferralTables
  import opened ReferralInvariant
  import opened ReferralMeaning

  class ReferralStore {
    var profiles: map<DiscordId, Profile>
    var rewards: map<WhopId, Reward>
    var nextRow: nat

    function Tables(): Db
      reads this
    {
      Db(profiles, rewards, nextRow)
    }

    ghost predicate Valid()
      reads this
    {
      StoreInv(Tables())
    }

    constructor ()
      ensures Valid() && Tables() == EMPTY
    {
      profiles, rewards, nextRow := map[], map[], 1;
    }

    method EnsureProfile(d: DiscordId)
      requires Valid()
      modifies this
      ensures Valid() && Tables() == ReferralTables.EnsureProfile(old(Tables()), d)
    {
      EnsureProfileKeeps(Tables(), d);
      if d !in profiles { profiles := profiles[d := Profile(None)]; }
    }

    method BindWhopUser(d: DiscordId, w: WhopId) returns (bound: bool)
      requires Valid()
      modifies this
      ensures Valid() && (Tables(), bound) == Bind(old(Tables()), d, w)
      ensures bound ==> forall o | o in profiles :: profiles[o].whop == Some(w) <==> o == d
      ensures bound && w in rewards && rewards[w].referrer == d ==>
                rewards[w].state.Exception? || rewards[w].state.Used? || rewards[w].state.Void?
    {
      BindKeeps(Tables(), d, w);
      bound := MayBind(Tables(), d, w);
      if bound {
        profiles := profiles[d := Profile(Some(w))];
        rewards := FlagSelf(rewards, d, w);
      }
    }

    method CreditReferral(referrer: DiscordId, referee: WhopId, payment: PaymentId, m: MembershipId,
                          refereeDiscord: Option<DiscordId>, now: Time) returns (outcome: Credited)
      requires Valid()
      modifies this
      ensures Valid()
      ensures (Tables(), outcome) == Credit(old(Tables()), referrer, referee, payment, m, refereeDiscord, now)
      ensures outcome.New? ==> referee !in old(rewards) && referee in rewards && rewards[referee].state.Pending?
      ensures !outcome.New? ==> Tables() == old(Tables())
    {
      CreditKeeps(Tables(), referrer, referee, payment, m, refereeDiscord, now);
      outcome := Judge(referrer, referee, payment, refereeDiscord);
      if !outcome.New? { return; }
      NewIsNew(Tables(), referrer, referee, payment, refereeDiscord);
      rewards := rewards[referee := NewReward(Tables(), referrer, payment, m, refereeDiscord, now)];
      nextRow := nextRow + 1;
    }

    /** Attribution: who may be credited, and what already was. */
    method Judge(referrer: DiscordId, referee: WhopId, payment: PaymentId, refereeDiscord: Option<DiscordId>)
      returns (outcome: Credited)
      ensures outcome == CreditOutcome(Tables(), referrer, referee, payment, refereeDiscord)
    {
      if referrer !in profiles { return Refused; }
      if profiles[referrer].whop == Some(referee) || refereeDiscord == Some(referrer) { return Refused; }
      var previous := set id | id in rewards && IsPrevious(Tables(), id, referee, payment);
      if previous != {} {
        assert exists id | id in rewards :: IsPrevious(Tables(), id, referee, payment) by {
          var id :| id in previous;
          assert IsPrevious(Tables(), id, referee, payment);
        }
        var others := exists id | id in previous :: rewards[id].referrer != referrer || id != referee;
        return if others then Refused else Already;
      }
      assert forall id | id in rewards :: IsPrevious(Tables(), id, referee, payment) ==> id in previous;
      outcome := New;
    }

    /** Lease the oldest payable reward. */
    method ClaimReward(d: DiscordId, m: MembershipId, token: Token, until: Time, fingerprint: Option<Fingerprint>)
      returns (claimed: Option<WhopId>)
      requires Valid()
      modifies this
      ensures Valid()
      ensures claimed.Some? <==> MayClaim(old(Tables()), d, m) && Payable(old(Tables()), d) != map[]
      ensures claimed.Some? <==> MayClaim(old(Tables()), d, m) && exists id :: MayBePaid(old(Tables()), d, id)
      ensures claimed.None? ==> Tables() == old(Tables())
      ensures claimed.Some? ==> OldestPayable(old(Tables()), d, claimed.value)
      ensures claimed.Some? ==>
                && Lowest(Payable(old(Tables()), d), claimed.value)
                && Tables() == ReferralTables.ClaimReward(old(Tables()), claimed.value, m, token, until, fingerprint)
    {
      if !MayClaim(Tables(), d, m) { return None; }
      var payable := Payable(Tables(), d);
      PaysOldest(Tables(), d, 0);
      if payable == map[] { return None; }
      var id := LowestRow(payable);
      PaysOldest(Tables(), d, id);
      ClaimKeeps(Tables(), d, id, m, token, until, fingerprint);
      rewards := rewards[id := Leased(rewards[id], id, m, token, until, fingerprint)];
      claimed := Some(id);
    }

    method MarkSubmission(id: WhopId, token: Token, now: Time) returns (ok: bool)
      requires Valid()
      modifies this`rewards
      ensures Valid() && (Tables(), ok) == ReferralTables.MarkSubmission(old(Tables()), id, token, now)
      ensures ok ==> rewards[id].submitted.Some?
      ensures ok && old(rewards)[id].submitted.Some? ==> Tables() == old(Tables())
    {
      MarkSubmissionKeeps(Tables(), id, token, now);
      ok := Owns(Tables(), id, token) && rewards[id].state.Applying?;
      if ok && rewards[id].submitted.None? {
        rewards := rewards[id := rewards[id].(submitted := Some(now))];
      } else if ok {
        assert rewards[id := rewards[id]] == rewards;
      }
    }

    method SaveApplied(id: WhopId, promo: PromoId) returns (ok: bool)
      requires id in rewards
      modifies this`rewards
      ensures (Tables(), ok) == ReferralTables.SaveApplied(old(Tables()), id, promo)
    {
      ok := PromoFree(Tables(), id, promo);
      if ok {
        rewards := rewards[id := rewards[id].(state := Applied, promo := Some(promo), leaseUntil := None,
                                              reason := None)];
      }
    }

    method MarkApplied(id: WhopId, token: Token, promo: PromoId) returns (ok: bool)
      requires Valid()
      modifies this`rewards
      ensures Valid() && (Tables(), ok) == ReferralTables.MarkApplied(old(Tables()), id, token, promo)
      ensures ok ==> forall o | o in rewards :: rewards[o].promo == Some(promo) <==> o == id
    {
      MarkAppliedKeeps(Tables(), id, token, promo);
      if !Owns(Tables(), id, token) { return false; }
      if rewards[id].state.Applied? && rewards[id].promo != Some(promo) { return false; }
      ok := SaveApplied(id, promo);
    }

    method ReleaseReward(id: WhopId, token: Token, reason: string, unsubmittedOnly: bool) returns (ok: bool)
      requires Valid()
      modifies this`rewards
      ensures Valid() && (Tables(), ok) == Release(old(Tables()), id, token, reason, unsubmittedOnly)
      ensures ok ==> !Owns(Tables(), id, token)
    {
      ReleaseKeeps(Tables(), id, token, reason, unsubmittedOnly);
      if !Owns(Tables(), id, token) || !rewards[id].state.Applying? { return false; }
      if unsubmittedOnly && rewards[id].submitted.Some? { return false; }
      rewards := rewards[id := BackToPending(rewards[id], reason)];
      ok := true;
    }

    method FlagException(id: WhopId, reason: string) returns (ok: bool)
      requires Valid()
      modifies this`rewards
      ensures Valid() && (Tables(), ok) == Flag(old(Tables()), id, reason)
      ensures ok ==> (rewards[id].state != old(rewards)[id].state ==>
                        rewards[id].state.Exception? && !old(rewards)[id].state.Used? && !old(rewards)[id].state.Void?)
    {
      FlagKeeps(Tables(), id, reason);
      if id !in rewards { return false; }
      var state := if rewards[id].state.Used? || rewards[id].state.Void? then rewards[id].state else Exception;
      rewards := rewards[id := rewards[id].(state := state, reason := Some(reason))];
      ok := true;
    }

    method ReconcileApplication(id: WhopId, evidence: Evidence) returns (ok: bool)
      requires Valid()
      modifies this`rewards
      ensures Valid() && (Tables(), ok) == Reconcile(old(Tables()), id, evidence)
      ensures ok && evidence.WasApplied? ==> rewards[id].state.Applied? && rewards[id].promo == Some(evidence.promo)
      ensures ok && evidence.NotApplied? ==> rewards[id].state.Pending? && !old(rewards)[id].state.Applied?
    {
      ReconcileKeeps(Tables(), id, evidence);
      if !Reconcilable(Tables(), id) { return false; }
      match evidence {
        case WasApplied(promo) =>
          if rewards[id].membership.None? { return false; }
          if rewards[id].promo.Some? && rewards[id].promo.value != promo { return false; }
          ok := SaveApplied(id, promo);
        case NotApplied =>
          if rewards[id].state.Applied? { return false; }
          rewards := rewards[id := BackToPending(rewards[id], "confirmed_not_applied")];
          ok := true;
        case NoAnswer => ok := true;
      }
    }

    method MarkUsed(id: WhopId, payment: PaymentId, m: MembershipId) returns (ok: bool)
      requires Valid()
      modifies this`rewards
      ensures Valid() && (Tables(), ok) == ReferralTables.MarkUsed(old(Tables()), id, payment, m)
      ensures ok ==> id in rewards && rewards[id].state.Used? && rewards[id].usedPayment == Some(payment)
      ensures ok && !old(rewards)[id].state.Used? ==>
                forall o | o in rewards :: rewards[o].usedPayment == Some(payment) <==> o == id
    {
      MarkUsedKeeps(Tables(), id, payment, m);
      if id !in rewards || !(rewards[id].state.Applied? || rewards[id].state.Used?) { return false; }
      if rewards[id].membership != Some(m) { return false; }
      if rewards[id].state.Used? { return rewards[id].usedPayment == Some(payment); }
      ok := PaymentFree(Tables(), payment);
      if ok {
        rewards := rewards[id := rewards[id].(state := Used, usedPayment := Some(payment), reason := None)];
      }
    }

    method VoidReward(id: WhopId, reason: string) returns (ok: bool)
      requires Valid()
      modifies this`rewards
      ensures Valid() && (Tables(), ok) == ReferralTables.VoidReward(old(Tables()), id, reason)
      ensures ok ==> rewards[id].state.Void? && (old(rewards)[id].state.Pending? || old(rewards)[id].state.Void?)
    {
      VoidKeeps(Tables(), id, reason);
      ok := id in rewards && (rewards[id].state.Pending? || rewards[id].state.Void?);
      if ok { rewards := rewards[id := rewards[id].(state := Void, reason := Some(reason))]; }
    }
  }
}
