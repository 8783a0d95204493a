/** The referral reward ledger: profiles, rewards and their transactions.

    A reward's hashed id depends only on the referred account, so that account is its key here.
    An intent key is the hash of (reward, membership, generation) and is kept as that triple. */
module ReferralTables {
  import opened Basics
  import opened Ranking

  type DiscordId = nat
  type WhopId = nat
  type PaymentId = nat
  type MembershipId = nat
  type PromoId = nat
  type Token = nat
  type Fingerprint = nat

  const REPLAY_WINDOW: Time := 86340.0
  const SELF_REFERRAL := "self_referral"

  datatype Profile = Profile(whop: Option<WhopId>)

  datatype State = Pending | Applying | Applied | Used | Void | Exception

  datatype Intent = Intent(reward: WhopId, membership: MembershipId, generation: nat)

  datatype Reward = Reward(
    referrer: DiscordId, refereeDiscord: Option<DiscordId>, payment: PaymentId,
    refereeMembership: MembershipId, created: Time, row: nat,
    state: State, membership: Option<MembershipId>, token: Option<Token>, leaseUntil: Option<Time>,
    intent: Option<Intent>, generation: nat, fingerprint: Option<Fingerprint>,
    submitted: Option<Time>, promo: Option<PromoId>, usedPayment: Option<PaymentId>,
    reason: Option<string>)
  {
    /** The rows of the two partial unique indexes. */
    predicate Outstanding() {
      membership.Some? && (state.Applying? || state.Applied? || state.Exception?)
    }
  }

  datatype Db = Db(profiles: map<DiscordId, Profile>, rewards: map<WhopId, Reward>, nextRow: nat)

  const EMPTY := Db(map[], map[], 1)

  function Put(db: Db, id: WhopId, r: Reward): Db {
    db.(rewards := db.rewards[id := r])
  }

  // ---------------------------------------------------------------- identities

  function EnsureProfile(db: Db, d: DiscordId): Db {
    if d in db.profiles then db else db.(profiles := db.profiles[d := Profile(None)])
  }

  predicate MayBind(db: Db, d: DiscordId, w: WhopId) {
    && d in db.profiles
    && (db.profiles[d].whop.Some? ==> db.profiles[d].whop.value == w)
    && forall o | o in db.profiles && o != d :: db.profiles[o].whop != Some(w)
  }

  /** A late binding can expose an earlier self referral. */
  function FlagSelf(rewards: map<WhopId, Reward>, d: DiscordId, w: WhopId): map<WhopId, Reward> {
    map id | id in rewards ::
      if rewards[id].referrer == d && id == w && !rewards[id].state.Used? && !rewards[id].state.Void?
      then rewards[id].(state := Exception, reason := Some(SELF_REFERRAL)) else rewards[id]
  }

  function Bind(db: Db, d: DiscordId, w: WhopId): (Db, bool) {
    if MayBind(db, d, w)
    then (db.(profiles := db.profiles[d := Profile(Some(w))], rewards := FlagSelf(db.rewards, d, w)), true)
    else (db, false)
  }

  // ---------------------------------------------------------------- credits

  datatype Credited = Refused | Already | New

  predicate SelfReferral(db: Db, referrer: DiscordId, referee: WhopId, refereeDiscord: Option<DiscordId>)
    requires referrer in db.profiles
  {
    db.profiles[referrer].whop == Some(referee) || refereeDiscord == Some(referrer)
  }

  /** Rewards that already name this friend or this purchase. */
  predicate IsPrevious(db: Db, id: WhopId, referee: WhopId, payment: PaymentId) {
    id in db.rewards && (id == referee || db.rewards[id].payment == payment)
  }

  function CreditOutcome(db: Db, referrer: DiscordId, referee: WhopId, payment: PaymentId,
                         refereeDiscord: Option<DiscordId>): Credited
  {
    if referrer !in db.profiles || SelfReferral(db, referrer, referee, refereeDiscord) then Refused
    else if !(exists id | id in db.rewards :: IsPrevious(db, id, referee, payment)) then New
    else if exists id | id in db.rewards ::
              IsPrevious(db, id, referee, payment) && (db.rewards[id].referrer != referrer || id != referee)
    then Refused
    else Already
  }

  function NewReward(db: Db, referrer: DiscordId, payment: PaymentId, membership: MembershipId,
                     refereeDiscord: Option<DiscordId>, now: Time): Reward
  {
    Reward(referrer, refereeDiscord, payment, membership, now, db.nextRow, Pending, None, None, None,
           None, 0, None, None, None, None, None)
  }

  function Credit(db: Db, referrer: DiscordId, referee: WhopId, payment: PaymentId, membership: MembershipId,
                  refereeDiscord: Option<DiscordId>, now: Time): (Db, Credited)
  {
    var outcome := CreditOutcome(db, referrer, referee, payment, refereeDiscord);
    if outcome.New?
    then (Put(db, referee, NewReward(db, referrer, payment, membership, refereeDiscord, now))
            .(nextRow := db.nextRow + 1), outcome)
    else (db, outcome)
  }

  // ---------------------------------------------------------------- applications

  predicate MayClaim(db: Db, d: DiscordId, m: MembershipId) {
    && d in db.profiles && db.profiles[d].whop.Some?
    && forall id | id in db.rewards && db.rewards[id].Outstanding() ::
         db.rewards[id].referrer != d && db.rewards[id].membership != Some(m)
  }

  /** Payable rewards of one member, oldest first. */
  function Payable(db: Db, d: DiscordId): map<WhopId, Rank>
    requires d in db.profiles
  {
    map id | id in db.rewards && db.rewards[id].referrer == d && db.rewards[id].state.Pending?
             && Some(id) != db.profiles[d].whop ::
      Rank(0, 0, 0, 0, db.rewards[id].created, db.rewards[id].row as real)
  }

  function Leased(r: Reward, id: WhopId, m: MembershipId, token: Token, until: Time,
                  fingerprint: Option<Fingerprint>): Reward
  {
    r.(state := Applying, membership := Some(m), token := Some(token), leaseUntil := Some(until),
       intent := Some(Intent(id, m, r.generation + 1)), generation := r.generation + 1,
       fingerprint := fingerprint, submitted := None, reason := None)
  }

  function ClaimReward(db: Db, id: WhopId, m: MembershipId, token: Token, until: Time,
                       fingerprint: Option<Fingerprint>): Db
    requires id in db.rewards
  {
    Put(db, id, Leased(db.rewards[id], id, m, token, until, fingerprint))
  }

  predicate Owns(db: Db, id: WhopId, token: Token) {
    id in db.rewards && db.rewards[id].token == Some(token)
    && (db.rewards[id].state.Applying? || db.rewards[id].state.Applied?)
  }

  /** The durable boundary before the provider write; a second mark keeps the first time. */
  function MarkSubmission(db: Db, id: WhopId, token: Token, now: Time): (Db, bool) {
    if Owns(db, id, token) && db.rewards[id].state.Applying? then
      (Put(db, id, db.rewards[id].(submitted := if db.rewards[id].submitted.Some?
                                                then db.rewards[id].submitted else Some(now))), true)
    else (db, false)
  }

  predicate PromoFree(db: Db, id: WhopId, promo: PromoId) {
    forall o | o in db.rewards && o != id :: db.rewards[o].promo != Some(promo)
  }

  function SaveApplied(db: Db, id: WhopId, promo: PromoId): (Db, bool)
    requires id in db.rewards
  {
    if PromoFree(db, id, promo) then
      (Put(db, id, db.rewards[id].(state := Applied, promo := Some(promo), leaseUntil := None, reason := None)), true)
    else (db, false)
  }

  function MarkApplied(db: Db, id: WhopId, token: Token, promo: PromoId): (Db, bool) {
    if !Owns(db, id, token) || (db.rewards[id].state.Applied? && db.rewards[id].promo != Some(promo))
    then (db, false)
    else SaveApplied(db, id, promo)
  }

  function BackToPending(r: Reward, reason: string): Reward {
    r.(state := Pending, membership := None, token := None, leaseUntil := None, promo := None,
       submitted := None, reason := Some(reason))
  }

  function Release(db: Db, id: WhopId, token: Token, reason: string, unsubmittedOnly: bool): (Db, bool) {
    if Owns(db, id, token) && db.rewards[id].state.Applying?
       && !(unsubmittedOnly && db.rewards[id].submitted.Some?)
    then (Put(db, id, BackToPending(db.rewards[id], reason)), true)
    else (db, false)
  }

  /** A consumed or void reward is never reversed into a new debt. */
  function Flag(db: Db, id: WhopId, reason: string): (Db, bool) {
    if id !in db.rewards then (db, false)
    else
      var r := db.rewards[id];
      (Put(db, id, r.(state := if r.state.Used? || r.state.Void? then r.state else Exception,
                      reason := Some(reason))), true)
  }

  datatype Evidence = WasApplied(promo: PromoId) | NotApplied | NoAnswer

  predicate Reconcilable(db: Db, id: WhopId) {
    && id in db.rewards
    && (db.rewards[id].state.Applying? || db.rewards[id].state.Applied? || db.rewards[id].state.Exception?)
    && db.rewards[id].reason != Some(SELF_REFERRAL)
  }

  function Reconcile(db: Db, id: WhopId, evidence: Evidence): (Db, bool) {
    if !Reconcilable(db, id) then (db, false)
    else
      var r := db.rewards[id];
      match evidence
      case WasApplied(promo) =>
        if r.membership.None? || (r.promo.Some? && r.promo.value != promo) then (db, false)
        else SaveApplied(db, id, promo)
      case NotApplied =>
        if r.state.Applied? then (db, false)
        else (Put(db, id, BackToPending(r, "confirmed_not_applied")), true)
      case NoAnswer => (db, true)
  }

  predicate PaymentFree(db: Db, payment: PaymentId) {
    forall o | o in db.rewards :: db.rewards[o].usedPayment != Some(payment)
  }

  function MarkUsed(db: Db, id: WhopId, payment: PaymentId, m: MembershipId): (Db, bool) {
    if id !in db.rewards || !(db.rewards[id].state.Applied? || db.rewards[id].state.Used?)
       || db.rewards[id].membership != Some(m)
    then (db, false)
    else if db.rewards[id].state.Used? then (db, db.rewards[id].usedPayment == Some(payment))
    else if !PaymentFree(db, payment) then (db, false)
    else (Put(db, id, db.rewards[id].(state := Used, usedPayment := Some(payment), reason := None)), true)
  }

  function VoidReward(db: Db, id: WhopId, reason: string): (Db, bool) {
    if id in db.rewards && (db.rewards[id].state.Pending? || db.rewards[id].state.Void?)
    then (Put(db, id, db.rewards[id].(state := Void, reason := Some(reason))), true)
    else (db, false)
  }
}
