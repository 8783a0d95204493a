/** The keyword index is a refinement of a full scan, after any watch edits, and the caps on a
    member's watches hold. */
module RequestIndex {
  import opened Basics
  import opened Ranking
  import opened RequestTables

  /** The index holds exactly the tokens of the current revision of every keyword watch. */
  ghost predicate Indexed(db: Db) {
    && (forall k | k in db.keywords ::
          k.1 in db.requests && k.0 in TokensOf(db.requests[k.1].matcher)
          && db.keywords[k] == db.requests[k.1].revision)
    && (forall id, w | id in db.requests && w in TokensOf(db.requests[id].matcher) :: (w, id) in db.keywords)
  }

  ghost predicate Watches(db: Db) {
    && (forall id | id in db.requests :: id < db.nextId)
    && (forall id | id in db.requests :: db.requests[id].matcher != Keywords({}))
    && (forall x, y | x in db.requests && y in db.requests && db.requests[x].user == db.requests[y].user
                      && db.requests[x].matcher == db.requests[y].matcher :: x == y)
  }

  ghost predicate Capped(db: Db) {
    forall u :: |Owned(db, u)| <= MAX_REQUESTS
  }

  ghost predicate WatchInv(db: Db) {
    Indexed(db) && Watches(db) && Capped(db)
  }

  lemma EmptyWatches()
    ensures WatchInv(EMPTY)
  {
    assert forall u :: Owned(EMPTY, u) == {};
  }

  // ---------------------------------------------------------------- refinement

  lemma CountMeansSubset(hits: set<string>, tokens: set<string>, words: set<string>)
    requires hits == tokens * words && tokens != {}
    ensures (hits != {} && |hits| == |tokens|) <==> tokens <= words
  {
    if |hits| == |tokens| { SubsetOfSameSize(hits, tokens); }
    if tokens <= words { assert hits == tokens; }
  }

  /** The candidate query alone, by its index rows and their count, finds exactly the watches saved by
      then that name the product or only words of its title. */
  lemma CandidatesExact(db: Db, id: RequestId, item: Item, now: Time)
    requires Indexed(db) && Watches(db)
    ensures IsCandidate(db, id, item, now) <==>
            && id in db.requests && db.requests[id].updated <= now
            && (db.requests[id].matcher == Exact(item.id)
                || (db.requests[id].matcher.Keywords?
                    && forall w | w in db.requests[id].matcher.tokens :: w in item.words))
  {
    if id in db.requests && db.requests[id].matcher.Keywords? {
      var tokens := db.requests[id].matcher.tokens;
      assert IndexHits(db, id, item.words) == tokens * item.words;
      CountMeansSubset(IndexHits(db, id, item.words), tokens, item.words);
    }
  }

  lemma CandidateIsComplete(db: Db, id: RequestId, item: Item, now: Time)
    requires Indexed(db) && Watches(db) && id in db.requests
    ensures IsCandidate(db, id, item, now) && Matches(db.requests[id], item) <==>
            db.requests[id].updated <= now && Matches(db.requests[id], item)
  {
    match db.requests[id].matcher
    case Exact(_) =>
    case Keywords(tokens) =>
      assert IndexHits(db, id, item.words) == tokens * item.words;
      CountMeansSubset(IndexHits(db, id, item.words), tokens, item.words);
  }

  /** The indexed candidate query followed by the matcher finds exactly what a scan finds. */
  lemma IndexRefinesScan(db: Db, item: Item, now: Time)
    requires WatchInv(db)
    ensures Hits(db, item, now) == Scan(db, item, now)
  {
    forall id | id in db.requests
      ensures id in Hits(db, item, now) <==> id in Scan(db, item, now)
    {
      CandidateIsComplete(db, id, item, now);
    }
  }

  // ---------------------------------------------------------------- preservation

  /** Transactions that leave watches and index alone. */
  ghost predicate SameWatches(a: Db, b: Db) {
    a.requests == b.requests && a.keywords == b.keywords && a.nextId == b.nextId
  }

  lemma SameWatchesKeep(a: Db, b: Db)
    requires WatchInv(a) && SameWatches(a, b)
    ensures WatchInv(b)
  {
    forall u ensures |Owned(b, u)| <= MAX_REQUESTS { assert Owned(b, u) == Owned(a, u); }
  }

  lemma InsertIndexed(db: Db, user: UserId, m: Matcher, minimum: Option<nat>, now: Time)
    requires Indexed(db) && Watches(db)
    ensures Indexed(Insert(db, user, m, minimum, now))
  {
  }

  lemma InsertWatches(db: Db, user: UserId, m: Matcher, minimum: Option<nat>, now: Time)
    requires Watches(db) && m != Keywords({}) && !HasMatcher(db, user, m)
    ensures Watches(Insert(db, user, m, minimum, now))
  {
  }

  lemma InsertKeeps(db: Db, user: UserId, m: Matcher, minimum: Option<nat>, now: Time)
    requires WatchInv(db) && m != Keywords({}) && !HasMatcher(db, user, m)
    requires |Owned(db, user)| < MAX_REQUESTS
    ensures WatchInv(Insert(db, user, m, minimum, now))
    ensures Owned(Insert(db, user, m, minimum, now), user) == Owned(db, user) + {db.nextId}
  {
    var next := Insert(db, user, m, minimum, now);
    InsertIndexed(db, user, m, minimum, now);
    InsertWatches(db, user, m, minimum, now);
    assert db.nextId !in db.requests;
    forall u ensures Owned(next, u) == if u == user then Owned(db, u) + {db.nextId} else Owned(db, u) {}
  }

  /** The member's matchers after a batch are the old ones and the batch. */
  ghost predicate Merged(db: Db, next: Db, user: UserId, queries: seq<Matcher>) {
    forall m :: HasMatcher(next, user, m) <==> HasMatcher(db, user, m) || m in queries
  }

  lemma MergedOneMore(db: Db, before: Db, after: Db, user: UserId, front: seq<Matcher>, m: Matcher)
    requires Merged(db, before, user, front)
    requires forall o :: HasMatcher(after, user, o) <==> HasMatcher(before, user, o) || o == m
    ensures Merged(db, after, user, front + [m])
  {
    forall o ensures HasMatcher(after, user, o) <==> HasMatcher(db, user, o) || o in front + [m] {
      assert HasMatcher(before, user, o) <==> HasMatcher(db, user, o) || o in front;
    }
  }

  /** A query that the member already had changes nothing. */
  lemma MergedKnown(db: Db, before: Db, user: UserId, front: seq<Matcher>, m: Matcher)
    requires Merged(db, before, user, front) && HasMatcher(db, user, m)
    ensures Merged(db, before, user, front + [m])
  {
    forall o ensures HasMatcher(before, user, o) <==> HasMatcher(db, user, o) || o in front + [m] {
      assert HasMatcher(before, user, o) <==> HasMatcher(db, user, o) || o in front;
    }
  }

  lemma AddNothing(db: Db, user: UserId)
    requires WatchInv(db)
    ensures WatchInv(EnsureUser(db, user)) && Merged(db, EnsureUser(db, user), user, [])
    ensures Owned(EnsureUser(db, user), user) == Owned(db, user)
  {
    SameWatchesKeep(db, EnsureUser(db, user));
  }

  lemma FrontFits(db: Db, user: UserId, queries: seq<Matcher>)
    requires queries != [] && Distinct(queries)
    ensures var n := |queries| - 1;
            && Distinct(queries[..n]) && (forall m | m in queries[..n] :: m in queries) && queries[n] !in queries[..n]
            && Additions(db, user, queries)
               == Additions(db, user, queries[..n]) + if HasMatcher(db, user, queries[n]) then 0 else 1
  {
  }

  /** A whole batch keeps the index and the cap, and saves exactly the queries it was given. */
  lemma {:induction false} AddAllKeeps(db: Db, user: UserId, queries: seq<Matcher>, minimum: Option<nat>, now: Time)
    requires WatchInv(db) && Keywords({}) !in queries && Distinct(queries)
    requires |Owned(db, user)| + Additions(db, user, queries) <= MAX_REQUESTS
    ensures var next := AddAll(db, user, queries, minimum, now);
            && WatchInv(next) && Merged(db, next, user, queries)
            && |Owned(next, user)| == |Owned(db, user)| + Additions(db, user, queries)
    decreases |queries|
  {
    if queries == [] {
      AddNothing(db, user);
    } else {
      var n := |queries| - 1;
      var m := queries[n];
      FrontFits(db, user, queries);
      AddAllKeeps(db, user, queries[..n], minimum, now);
      var before := AddAll(db, user, queries[..n], minimum, now);
      assert queries[..n] + [m] == queries && m !in queries[..n];
      if HasMatcher(db, user, m) {
        assert AddAll(db, user, queries, minimum, now) == before;
        MergedKnown(db, before, user, queries[..n], m);
      } else {
        assert AddAll(db, user, queries, minimum, now) == Insert(before, user, m, minimum, now);
        AddNext(db, before, user, queries[..n], m, minimum, now);
      }
    }
  }

  /** The next query of the batch, saved behind the ones before it. */
  lemma AddNext(db: Db, before: Db, user: UserId, front: seq<Matcher>, m: Matcher, minimum: Option<nat>, now: Time)
    requires WatchInv(before) && Merged(db, before, user, front) && m != Keywords({})
    requires !HasMatcher(db, user, m) && m !in front && |Owned(before, user)| < MAX_REQUESTS
    ensures var next := Insert(before, user, m, minimum, now);
            WatchInv(next) && Merged(db, next, user, front + [m]) && |Owned(next, user)| == |Owned(before, user)| + 1
  {
    assert !HasMatcher(before, user, m);
    AddOne(before, user, m, minimum, now);
    MergedOneMore(db, before, Insert(before, user, m, minimum, now), user, front, m);
  }

  /** One more query that is not saved yet. */
  lemma AddOne(db: Db, user: UserId, m: Matcher, minimum: Option<nat>, now: Time)
    requires WatchInv(db) && m != Keywords({}) && !HasMatcher(db, user, m) && |Owned(db, user)| < MAX_REQUESTS
    ensures var next := Insert(db, user, m, minimum, now);
            && WatchInv(next) && |Owned(next, user)| == |Owned(db, user)| + 1
            && (forall o :: HasMatcher(next, user, o) <==> HasMatcher(db, user, o) || o == m)
  {
    InsertKeeps(db, user, m, minimum, now);
    InsertedMatchers(db, user, m, minimum, now);
    assert db.nextId !in Owned(db, user);
  }

  lemma InsertedMatchers(db: Db, user: UserId, m: Matcher, minimum: Option<nat>, now: Time)
    requires Watches(db)
    ensures forall o :: HasMatcher(Insert(db, user, m, minimum, now), user, o) <==>
                        HasMatcher(db, user, o) || o == m
  {
    var next := Insert(db, user, m, minimum, now);
    assert db.nextId in next.requests && next.requests[db.nextId].matcher == m;
    forall o ensures HasMatcher(next, user, o) <==> HasMatcher(db, user, o) || o == m {
      if HasMatcher(db, user, o) {
        var id :| id in db.requests && db.requests[id].user == user && db.requests[id].matcher == o;
        assert next.requests[id] == db.requests[id];
      }
    }
  }

  lemma EditIndexed(db: Db, id: RequestId, r: Request)
    requires Indexed(db) && id in db.requests
    ensures Indexed(db.(requests := db.requests[id := r],
                        keywords := Index(Unindex(db.keywords, {id}), id, r)))
  {
  }

  lemma EditKeeps(db: Db, user: UserId, id: RequestId, m: Matcher, minimum: Option<nat>, now: Time)
    requires WatchInv(db) && m != Keywords({}) && MayEdit(db, user, id, m)
    ensures WatchInv(Edit(db, user, id, m, minimum, now))
  {
    var next := Edit(db, user, id, m, minimum, now);
    EditIndexed(db, id, next.requests[id]);
    forall u ensures |Owned(next, u)| <= MAX_REQUESTS { assert Owned(next, u) == Owned(db, u); }
  }

  lemma RemoveKeeps(db: Db, ids: set<RequestId>)
    requires WatchInv(db)
    ensures WatchInv(Remove(db, ids))
  {
    var next := Remove(db, ids);
    forall u ensures |Owned(next, u)| <= MAX_REQUESTS {
      assert Owned(next, u) <= Owned(db, u);
      SubsetSize(Owned(next, u), Owned(db, u));
    }
  }

  lemma DeleteKeeps(db: Db, id: RequestId)
    requires WatchInv(db)
    ensures WatchInv(Delete(db, id))
  {
    RemoveKeeps(db, {id});
    SameWatchesKeep(Remove(db, {id}), Delete(db, id));
  }

  lemma RevokeKeeps(db: Db, user: UserId)
    requires WatchInv(db)
    ensures WatchInv(Revoke(db, user))
    ensures Owned(Revoke(db, user), user) == {}
  {
    RemoveKeeps(db, Owned(db, user));
    SameWatchesKeep(Remove(db, Owned(db, user)), Revoke(db, user));
  }

  lemma {:induction false} NotifyAllWatches(db: Db, users: seq<UserId>, item: Item, now: Time, hits: set<RequestId>)
    ensures SameWatches(db, NotifyAll(db, users, item, now, hits))
  {
    if users != [] { NotifyAllWatches(db, users[..|users| - 1], item, now, hits); }
  }

  lemma MatchItemKeeps(db: Db, item: Item, now: Time, seedOnly: bool, users: seq<UserId>)
    requires WatchInv(db)
    ensures WatchInv(MatchItem(db, item, now, seedOnly, users))
    ensures SameWatches(db, MatchItem(db, item, now, seedOnly, users))
  {
    var seen := Observed(db, item, now, seedOnly);
    NotifyAllWatches(seen, users, item, now, Hits(seen, item, now));
    SameWatchesKeep(db, MatchItem(db, item, now, seedOnly, users));
  }
}
