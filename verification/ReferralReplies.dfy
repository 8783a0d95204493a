/** What the answer to a first application leaves of its reward, told on the rows. */
module ReferralReplies {
  import opened Basics
  import opened ReferralTables
  import opened ReferralMeaning
  import opened ReferralRun

  /** The application may have been carried out: confirmed, answered for another promo, still in
      progress, redirected, failed on the provider's side, or cut off after it went out. */
  predicate MaybeApplied(answer: Answer) {
    match answer
    case Confirmed => true
    case Mismatched => true
    case Failed(code, inProgress) => code >= 500 || 300 <= code < 400 || inProgress
    case Broken(submitted) => submitted
    case NotSent => false
  }

  lemma AcceptanceTold(answer: Answer)
    ensures MayBeAccepted(answer) <==> MaybeApplied(answer)
  {
  }

  /** A confirmed application records its promo, unless another reward has it; one that may have been
      carried out stays as it is; a definite refusal opens the reward again. */
  lemma AnswerSettles(db: Db, id: WhopId, t: Token, answer: Answer, promo: PromoId, reason: string)
    requires HeldBy(db, id, t) && db.rewards[id].state == Applying
    ensures var next := Settled(db, id, t, answer, promo, reason);
            && OnlyReward(db, next, id)
            && (if answer == Confirmed then
                  if forall o | o in db.rewards && db.rewards[o].promo == Some(promo) :: o == id
                  then RecordedAs(db.rewards[id], next.rewards[id], promo) else next == db
                else if MaybeApplied(answer) then next == db
                else Reopened(db.rewards[id], next.rewards[id], reason))
  {
    AppliedTold(db, id, t, promo);
    ReleaseTold(db, id, t, reason, false);
  }

  /** An answer that comes after the token was lost changes nothing. */
  lemma LateAnswerSettlesNothing(db: Db, id: WhopId, t: Token, answer: Answer, promo: PromoId, reason: string)
    requires !HeldBy(db, id, t)
    ensures Settled(db, id, t, answer, promo, reason) == db
  {
  }
}
