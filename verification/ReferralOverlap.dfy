/** Why one poll must end before the next begins: a replay decided while a first submission of the
    same reward is in flight can be forgotten by that submission's own settlement. */
module ReferralOverlap {
  import opened Basics
  import opened Ranking
  import opened ReferralTables
  import opened ReferralRun
  import opened ReferralTheorems

  /** Everything that reading an application back asks for, except that nobody submits it. */
  ghost predicate ReadableBack(s: System, k: nat, id: WhopId) {
    && k !in s.replays && id in s.db.rewards && s.db.rewards[id].state.Applying?
    && s.db.rewards[id].submitted.Some? && s.db.rewards[id].fingerprint.Some? && s.db.rewards[id].intent.Some?
    && s.db.rewards[id].submitted.value <= s.now < s.db.rewards[id].submitted.value + REPLAY_WINDOW
  }

  ghost function ReadBackAnyway(s: System, k: nat, id: WhopId): System
    requires ReadableBack(s, k, id)
  {
    var r := s.db.rewards[id];
    s.(replays := s.replays[k := Replay(id, r.intent.value, r.fingerprint, r.submitted.value, None)])
  }

  /** The replay is decided and accepted while the first submission is still marked. */
  lemma Accepted(s: System, t: Token, k: nat)
    returns (read: System, checked: System, repeated: System, p: Post)
    requires SysInv(s) && t in s.workers && s.workers[t].stage.Marked? && ReadableBack(s, k, s.workers[t].id)
    ensures read == ReadBackAnyway(s, k, s.workers[t].id)
    ensures Enabled(read, CheckWindow(k)) && checked == Step(read, CheckWindow(k))
    ensures Enabled(checked, Repeat(k, Confirmed)) && repeated == Step(checked, Repeat(k, Confirmed))
    ensures repeated.db == s.db && repeated.workers == s.workers
    ensures p in repeated.posts && p.id == s.workers[t].id && MayBeAccepted(p.answer)
  {
    read := ReadBackAnyway(s, k, s.workers[t].id);
    checked := Step(read, CheckWindow(k));
    repeated := Step(checked, Repeat(k, Confirmed));
    p := repeated.posts[|repeated.posts| - 1];
  }

  /** A refusal of the first submission gives the row back. */
  lemma Refused(s: System, t: Token, promo: PromoId, reason: string) returns (refused: System, settled: System)
    requires t in s.workers && s.workers[t].stage.Marked?
    requires Owns(s.db, s.workers[t].id, t) && s.db.rewards[s.workers[t].id].state.Applying?
    ensures Enabled(s, Submit(t, Failed(400, false))) && refused == Step(s, Submit(t, Failed(400, false)))
    ensures Enabled(refused, SettleApply(t, promo, reason)) && settled == Step(refused, SettleApply(t, promo, reason))
    ensures s.workers[t].id in settled.db.rewards && settled.db.rewards[s.workers[t].id].state.Pending?
    ensures forall p | p in s.posts :: p in settled.posts
  {
    refused := Step(s, Submit(t, Failed(400, false)));
    settled := Step(refused, SettleApply(t, promo, reason));
  }

  /** From any state with a marked submission: read it back without the guard, repeat it and have it
      accepted, then have the first submission refused. The accepted reward is pending again. */
  lemma OverlapForgets(s: System, t: Token, k: nat, promo: PromoId, reason: string) returns (states: seq<System>)
    requires SysInv(s) && t in s.workers && s.workers[t].stage.Marked? && ReadableBack(s, k, s.workers[t].id)
    ensures Trace(states, [CheckWindow(k), Repeat(k, Confirmed), Submit(t, Failed(400, false)),
                           SettleApply(t, promo, reason)])
    ensures states[0] == ReadBackAnyway(s, k, s.workers[t].id)
    ensures var id := s.workers[t].id;
            && id in states[4].db.rewards && states[4].db.rewards[id].state.Pending?
            && exists p :: p in states[4].posts && p.id == id && MayBeAccepted(p.answer)
  {
    MarkedOwns(s, t);
    var read, checked, repeated, p := Accepted(s, t, k);
    var refused, settled := Refused(repeated, t, promo, reason);
    states := [read, checked, repeated, refused, settled];
    assert p in settled.posts;
  }

  lemma MarkedOwns(s: System, t: Token)
    requires SysInv(s) && t in s.workers && s.workers[t].stage.Marked? && s.workers[t].id in s.db.rewards
    requires s.db.rewards[s.workers[t].id].state.Applying?
    ensures Owns(s.db, s.workers[t].id, t)
  {
    assert WorkerOk(s, t, s.workers[t]);
  }

  // ---------------------------------------------------------------- such a state

  const MEMBER: DiscordId := 1
  const FRIEND: WhopId := 200

  function Opening(): seq<Event> {
    [Enrol(MEMBER), BindAccount(MEMBER, 100), CreditSale(MEMBER, FRIEND, 1, 2, None),
     Claim(MEMBER, 3, FRIEND, 7, 90.0, Some(5)), Mark(7)]
  }

  /** A run that ends with a marked submission which a second poll could read back. */
  lemma MarkedRun() returns (states: seq<System>)
    ensures Run(states, Opening())
    ensures var s := states[5];
            7 in s.workers && s.workers[7].stage.Marked? && s.workers[7].id == FRIEND && ReadableBack(s, 0, FRIEND)
  {
    var s3;
    states, s3 := Credited();
    var claim := Claim(MEMBER, 3, FRIEND, 7, 90.0, Some(5));
    var s4 := Step(s3, claim);
    var s5 := Step(s4, Mark(7));
    states := states + [s4, s5];
  }

  /** A member with an account and one pending reward, which can be claimed. */
  lemma Credited() returns (states: seq<System>, s: System)
    ensures |states| == 4 && states[0] == START && states[3] == s
    ensures forall i | 0 <= i < 3 :: Enabled(states[i], Opening()[i]) && states[i + 1] == Step(states[i], Opening()[i])
    ensures Enabled(s, Opening()[3]) && s.workers == map[] && s.replays == map[] && s.now == 0.0
    ensures FRIEND in s.db.rewards && s.db.rewards[FRIEND].state.Pending?
  {
    var s1 := Step(START, Enrol(MEMBER));
    assert s1.db == Db(map[MEMBER := Profile(None)], map[], 1);
    var s2 := Step(s1, BindAccount(MEMBER, 100));
    assert s2.db.profiles == map[MEMBER := Profile(Some(100))];
    assert s2.db.rewards == map[];
    s := Step(s2, CreditSale(MEMBER, FRIEND, 1, 2, None));
    assert Lowest(Payable(s.db, MEMBER), FRIEND);
    states := [START, s1, s2, s];
  }

  /** So the guard cannot be dropped: a run, one unguarded read, and an accepted reward is pending. */
  lemma GuardIsNeeded(promo: PromoId, reason: string) returns (states: seq<System>, after: seq<System>)
    ensures Run(states, Opening()) && ReadableBack(states[5], 0, FRIEND)
    ensures after != [] && after[0] == ReadBackAnyway(states[5], 0, FRIEND)
    ensures Trace(after, [CheckWindow(0), Repeat(0, Confirmed), Submit(7, Failed(400, false)),
                          SettleApply(7, promo, reason)])
    ensures FRIEND in after[4].db.rewards && after[4].db.rewards[FRIEND].state.Pending?
    ensures exists p :: p in after[4].posts && p.id == FRIEND && MayBeAccepted(p.answer)
  {
    states := MarkedRun();
    RunKeeps(states, Opening(), 5);
    after := OverlapForgets(states[5], 7, 0, promo, reason);
  }
}
