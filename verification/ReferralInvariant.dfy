/** What every transaction of the reward ledger keeps. */
module ReferralInvariant {
  import opened Basics
  import opened ReferralTables

  ghost predicate ProfilesOk(db: Db) {
    forall d, o | d in db.profiles && o in db.profiles && d != o && db.profiles[d].whop.Some? ::
      db.profiles[o].whop != db.profiles[d].whop
  }

  /** One reward by itself. A membership is attached only to a reward of a bound referrer who is
      not the referred account. */
  ghost predicate RowOk(db: Db, id: WhopId, r: Reward) {
    && r.referrer in db.profiles
    && (r.membership.Some? ==>
          && db.profiles[r.referrer].whop.Some? && db.profiles[r.referrer].whop.value != id
          && r.intent == Some(Intent(id, r.membership.value, r.generation)))
    && (r.state.Applying? || r.state.Applied? || r.state.Used? ==> r.membership.Some?)
    && (r.state.Pending? || r.state.Void? ==>
          r.membership.None? && r.token.None? && r.submitted.None? && r.promo.None?)
    && (r.state.Applying? ==> r.token.Some? && r.leaseUntil.Some?)
    && (r.state.Applied? ==> r.promo.Some?)
    && (r.state.Used? <==> r.usedPayment.Some?)
    && (r.intent.Some? ==> r.intent.value.reward == id && r.intent.value.generation <= r.generation)
    && r.row < db.nextRow
  }

  /** Two rewards together: the unique columns and the two partial unique indexes. */
  ghost predicate PairOk(r: Reward, q: Reward) {
    && r.payment != q.payment && r.row != q.row
    && (r.promo.Some? ==> r.promo != q.promo)
    && (r.usedPayment.Some? ==> r.usedPayment != q.usedPayment)
    && (r.Outstanding() && q.Outstanding() ==> r.referrer != q.referrer && r.membership != q.membership)
  }

  ghost predicate StoreInv(db: Db) {
    && ProfilesOk(db)
    && (forall id | id in db.rewards :: RowOk(db, id, db.rewards[id]))
    && (forall i, j | i in db.rewards && j in db.rewards && i != j :: PairOk(db.rewards[i], db.rewards[j]))
  }

  lemma PutKeeps(db: Db, id: WhopId, r: Reward)
    requires StoreInv(db) && RowOk(db, id, r)
    requires forall o | o in db.rewards && o != id :: PairOk(r, db.rewards[o])
    ensures StoreInv(Put(db, id, r))
  {
    var next := Put(db, id, r);
    forall o | o in next.rewards ensures RowOk(next, o, next.rewards[o]) {
      assert o != id ==> RowOk(db, o, db.rewards[o]);
    }
    forall i, j | i in next.rewards && j in next.rewards && i != j
      ensures PairOk(next.rewards[i], next.rewards[j])
    {
      if i != id && j != id { assert PairOk(db.rewards[i], db.rewards[j]); }
      if j == id { assert PairOk(r, db.rewards[i]); }
    }
  }

  /** A new version of a row that claims nothing more than the old one. */
  lemma ModestPut(db: Db, id: WhopId, r: Reward)
    requires StoreInv(db) && id in db.rewards && RowOk(db, id, r)
    requires var was := db.rewards[id];
             && r.payment == was.payment && r.row == was.row && r.referrer == was.referrer
             && (r.promo == was.promo || r.promo.None? || PromoFree(db, id, r.promo.value))
             && (r.usedPayment == was.usedPayment || (r.usedPayment.Some? && PaymentFree(db, r.usedPayment.value)))
             && (r.Outstanding() ==> was.Outstanding() && r.membership == was.membership)
    ensures StoreInv(Put(db, id, r))
  {
    forall o | o in db.rewards && o != id ensures PairOk(r, db.rewards[o]) {
      assert PairOk(db.rewards[id], db.rewards[o]);
    }
    PutKeeps(db, id, r);
  }

  lemma EnsureProfileKeeps(db: Db, d: DiscordId)
    requires StoreInv(db)
    ensures StoreInv(EnsureProfile(db, d))
  {
    var next := EnsureProfile(db, d);
    forall id | id in next.rewards ensures RowOk(next, id, next.rewards[id]) {
      assert RowOk(db, id, db.rewards[id]);
    }
  }

  lemma BindKeeps(db: Db, d: DiscordId, w: WhopId)
    requires StoreInv(db)
    ensures StoreInv(Bind(db, d, w).0)
  {
    if MayBind(db, d, w) {
      var next := Bind(db, d, w).0;
      forall id | id in next.rewards ensures RowOk(next, id, next.rewards[id]) {
        assert RowOk(db, id, db.rewards[id]);
      }
      forall i, j | i in next.rewards && j in next.rewards && i != j
        ensures PairOk(next.rewards[i], next.rewards[j])
      {
        assert RowOk(db, i, db.rewards[i]) && RowOk(db, j, db.rewards[j]);
        assert PairOk(db.rewards[i], db.rewards[j]);
      }
    }
  }

  /** A referee who is credited has no reward yet. */
  lemma NewIsNew(db: Db, referrer: DiscordId, referee: WhopId, payment: PaymentId, refereeDiscord: Option<DiscordId>)
    ensures CreditOutcome(db, referrer, referee, payment, refereeDiscord).New? ==> referee !in db.rewards
  {
    if referee in db.rewards { assert IsPrevious(db, referee, referee, payment); }
  }

  lemma CreditKeeps(db: Db, referrer: DiscordId, referee: WhopId, payment: PaymentId, membership: MembershipId,
                    refereeDiscord: Option<DiscordId>, now: Time)
    requires StoreInv(db)
    ensures StoreInv(Credit(db, referrer, referee, payment, membership, refereeDiscord, now).0)
  {
    if CreditOutcome(db, referrer, referee, payment, refereeDiscord).New? {
      var r := NewReward(db, referrer, payment, membership, refereeDiscord, now);
      var wider := db.(nextRow := db.nextRow + 1);
      forall id | id in db.rewards
        ensures RowOk(wider, id, db.rewards[id]) && PairOk(r, db.rewards[id])
      {
        assert RowOk(db, id, db.rewards[id]);
        assert !IsPrevious(db, id, referee, payment);
      }
      PutKeeps(wider, referee, r);
      assert Put(wider, referee, r) == Put(db, referee, r).(nextRow := db.nextRow + 1);
    }
  }

  /** The two partial unique indexes never fire on a claim. */
  lemma ClaimKeeps(db: Db, d: DiscordId, id: WhopId, m: MembershipId, token: Token, until: Time,
                   fingerprint: Option<Fingerprint>)
    requires StoreInv(db) && MayClaim(db, d, m) && id in Payable(db, d)
    ensures StoreInv(ClaimReward(db, id, m, token, until, fingerprint))
  {
    assert RowOk(db, id, db.rewards[id]);
    var r := Leased(db.rewards[id], id, m, token, until, fingerprint);
    forall o | o in db.rewards && o != id ensures PairOk(r, db.rewards[o]) {
      assert PairOk(db.rewards[id], db.rewards[o]);
    }
    PutKeeps(db, id, r);
  }

  lemma MarkSubmissionKeeps(db: Db, id: WhopId, token: Token, now: Time)
    requires StoreInv(db)
    ensures StoreInv(MarkSubmission(db, id, token, now).0)
  {
    if MarkSubmission(db, id, token, now).1 {
      assert RowOk(db, id, db.rewards[id]);
      ModestPut(db, id, MarkSubmission(db, id, token, now).0.rewards[id]);
    }
  }

  lemma SaveAppliedKeeps(db: Db, id: WhopId, promo: PromoId)
    requires StoreInv(db) && id in db.rewards && db.rewards[id].Outstanding()
    ensures StoreInv(SaveApplied(db, id, promo).0)
  {
    if PromoFree(db, id, promo) {
      assert RowOk(db, id, db.rewards[id]);
      ModestPut(db, id, SaveApplied(db, id, promo).0.rewards[id]);
    }
  }

  lemma MarkAppliedKeeps(db: Db, id: WhopId, token: Token, promo: PromoId)
    requires StoreInv(db)
    ensures StoreInv(MarkApplied(db, id, token, promo).0)
  {
    if Owns(db, id, token) {
      assert RowOk(db, id, db.rewards[id]);
      SaveAppliedKeeps(db, id, promo);
    }
  }

  lemma BackToPendingKeeps(db: Db, id: WhopId, reason: string)
    requires StoreInv(db) && id in db.rewards && !db.rewards[id].state.Used?
    ensures StoreInv(Put(db, id, BackToPending(db.rewards[id], reason)))
  {
    assert RowOk(db, id, db.rewards[id]);
    ModestPut(db, id, BackToPending(db.rewards[id], reason));
  }

  lemma ReleaseKeeps(db: Db, id: WhopId, token: Token, reason: string, unsubmittedOnly: bool)
    requires StoreInv(db)
    ensures StoreInv(Release(db, id, token, reason, unsubmittedOnly).0)
  {
    if Release(db, id, token, reason, unsubmittedOnly).1 { BackToPendingKeeps(db, id, reason); }
  }

  lemma FlagKeeps(db: Db, id: WhopId, reason: string)
    requires StoreInv(db)
    ensures StoreInv(Flag(db, id, reason).0)
  {
    if id in db.rewards {
      assert RowOk(db, id, db.rewards[id]);
      ModestPut(db, id, Flag(db, id, reason).0.rewards[id]);
    }
  }

  lemma ReconcileKeeps(db: Db, id: WhopId, evidence: Evidence)
    requires StoreInv(db)
    ensures StoreInv(Reconcile(db, id, evidence).0)
  {
    if Reconcilable(db, id) {
      if evidence.WasApplied? && db.rewards[id].membership.Some? { SaveAppliedKeeps(db, id, evidence.promo); }
      BackToPendingKeeps(db, id, "confirmed_not_applied");
    }
  }

  lemma MarkUsedKeeps(db: Db, id: WhopId, payment: PaymentId, m: MembershipId)
    requires StoreInv(db)
    ensures StoreInv(MarkUsed(db, id, payment, m).0)
  {
    if MarkUsed(db, id, payment, m).0 != db {
      assert RowOk(db, id, db.rewards[id]);
      ModestPut(db, id, MarkUsed(db, id, payment, m).0.rewards[id]);
    }
  }

  lemma VoidKeeps(db: Db, id: WhopId, reason: string)
    requires StoreInv(db)
    ensures StoreInv(VoidReward(db, id, reason).0)
  {
    if VoidReward(db, id, reason).1 {
      assert RowOk(db, id, db.rewards[id]);
      ModestPut(db, id, VoidReward(db, id, reason).0.rewards[id]);
    }
  }
}
