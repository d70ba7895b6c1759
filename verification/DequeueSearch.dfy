/**
 What one call of Dequeue computes, on values: the search through popped cache entries,
 the fall-back to the repository's own choice, and the leases taken and given back.
 The class in Queue.dfy is proved to compute `Search`; here `Search` is proved to mean
 what a caller expects.
 */
module DequeueSearch {
  import opened Models
  import opened Store
  import opened Cache

  /** The record a claim leaves: swapped to processing, then assigned, in two new versions. */
  function AfterClaim(ad: Record, owner: string): (r: Record)
    ensures r == ad.(status := Processing, workerId := owner, attempts := ad.attempts + 1, version := ad.version + 2)
  {
    NextVersion(Swapped(ad, Processing, 0).ClaimedBy(owner))
  }

  /** Can a cached entry lead to a delivery? */
  predicate Claimable(s: Ads, l: Locks, id: string, owner: string, now: int) {
    id in s && s[id].status == Queued && !LeasedToOther(l, id, owner, now)
  }

  /**
   What a dequeue finds: the first popped entry that is claimable, and otherwise the
   repository's first choice, which may be absent or leased to another owner.
   */
  ghost predicate Finds(s: Ads, l: Locks, owner: string, now: int,
                        tried: seq<string>, choice: Option<Record>, e: Option<Error>) {
    && (forall i | 0 <= i < |tried| - 1 :: !Claimable(s, l, tried[i], owner, now))
    && (if tried != [] && Claimable(s, l, tried[|tried| - 1], owner, now) then e == None && choice == None
        else
          && (choice.None? <==> IdsWith(s, Queued) == {})
          && (choice.Some? ==> IsLeast(s, Queued, ByPriority, choice.value))
          && e == if choice.None? then Some(QueueEmpty)
                  else if LeasedToOther(l, choice.value.adId, owner, now) then Some(ItemLocked)
                  else None)
  }

  function ClaimedId(tried: seq<string>, choice: Option<Record>): string {
    if choice.Some? then choice.value.adId else if tried != [] then tried[|tried| - 1] else ""
  }

  /** A delivery is always of an ad stored as queued and free to this owner; empty means empty. */
  lemma DequeueMeaning(s: Ads, l: Locks, owner: string, now: int,
                       tried: seq<string>, choice: Option<Record>, e: Option<Error>)
    requires Finds(s, l, owner, now, tried, choice, e)
    ensures e == Some(QueueEmpty) <==> IdsWith(s, Queued) == {}
    ensures e == None ==> Claimable(s, l, ClaimedId(tried, choice), owner, now)
    ensures e in {None, Some(QueueEmpty), Some(ItemLocked)}
  {
    if tried != [] && Claimable(s, l, tried[|tried| - 1], owner, now) {
      assert tried[|tried| - 1] in IdsWith(s, Queued);
    }
  }

  /** The state a queue operation reads and writes. */
  datatype Snapshot = Snapshot(stored: Ads, locks: Locks, cached: Scores)

  /** Who searches, when, and whether the cache is a sorted set of its own. */
  datatype Caller = Caller(owner: string, now: int, ttl: int, redis: bool)
  {
    predicate CanClaim(s: Snapshot, id: string) {
      Claimable(s.stored, s.locks, id, owner, now)
    }

    /** Does a popped entry get as far as taking its lease? */
    predicate Holds(s: Snapshot, id: string) {
      id in s.stored && s.stored[id].status in {Submitted, Queued} && !LeasedToOther(s.locks, id, owner, now)
    }

    /** After the pop, and the lease if one is taken. */
    function Popped(s: Snapshot, id: string): Snapshot {
      s.(cached := if redis then s.cached - {id} else s.cached,
         locks := if Holds(s, id) then s.locks[id := LockInfo(owner, now + ttl)] else s.locks)
    }

    /** The deferred release of the lease taken in state s. */
    function Freed(s: Snapshot, after: Snapshot, id: string): Snapshot {
      after.(locks := if Holds(s, id) then Release(after.locks, id, owner) else after.locks)
    }

    function Claimed(s: Snapshot, id: string): Snapshot
      requires id in s.stored
    {
      s.(stored := s.stored[id := AfterClaim(s.stored[id], owner)])
    }
  }

  datatype Answer = Answer(after: Snapshot, error: Option<Error>, delivered: Option<Record>)

  /** The slower path: the repository's choice, if it has one and its lease can be taken. */
  function StoreAnswer(c: Caller, s: Snapshot, choice: Option<Record>): Answer {
    if choice.None? then Answer(s, Some(QueueEmpty), None)
    else if LeasedToOther(s.locks, choice.value.adId, c.owner, c.now) then Answer(s, Some(ItemLocked), None)
    else
      var id, ad := choice.value.adId, AfterClaim(choice.value, c.owner);
      Answer(s.(stored := s.stored[id := ad], locks := s.locks[id := LockInfo(c.owner, c.now + c.ttl)]), None, Some(ad))
  }

  /** The whole search, given the IDs that came off the cache and the repository's choice. */
  function Search(c: Caller, s: Snapshot, tried: seq<string>, choice: Option<Record>): Answer
    decreases |tried|
  {
    if tried == [] then StoreAnswer(c, s, choice)
    else
      var id := tried[0];
      if c.CanClaim(s, id) then
        Answer(c.Freed(s, c.Claimed(c.Popped(s, id), id), id), None, Some(AfterClaim(s.stored[id], c.owner)))
      else
        var rest := Search(c, c.Popped(s, id), tried[1..], choice);
        rest.(after := c.Freed(s, rest.after, id))
  }

  ghost predicate IsStoreChoice(s: Snapshot, choice: Option<Record>) {
    && (choice.None? <==> IdsWith(s.stored, Queued) == {})
    && (choice.Some? ==> IsLeast(s.stored, Queued, ByPriority, choice.value))
  }

  /** What the cache hands out: a least score of its own, or the memory store's first queued ad. */
  ghost predicate IsOffer(c: Caller, s: Snapshot, id: string) {
    if c.redis then IsLeastScore(s.cached, id)
    else id in s.stored && IsLeast(s.stored, Queued, ByPop, s.stored[id])
  }

  ghost predicate IsEmptyCache(c: Caller, s: Snapshot) {
    if c.redis then s.cached == map[] else IdsWith(s.stored, Queued) == {}
  }

  /** tried and choice are what the cache and the repository could have answered. */
  ghost predicate Plausible(c: Caller, s: Snapshot, tried: seq<string>, choice: Option<Record>)
    decreases |tried|
  {
    if tried == [] then IsEmptyCache(c, s) && IsStoreChoice(s, choice)
    else
      IsOffer(c, s, tried[0]) &&
      if c.CanClaim(s, tried[0]) then |tried| == 1 && choice.None?
      else Plausible(c, c.Popped(s, tried[0]), tried[1..], choice)
  }

  /** On a memory cache a popped ad that cannot be claimed leaves everything as it was: the next pop offers it again. */
  lemma LeasedOfferComesBack(c: Caller, s: Snapshot, id: string)
    requires !c.redis && IsOffer(c, s, id)
    ensures c.CanClaim(s, id) <==> !LeasedToOther(s.locks, id, c.owner, c.now)
    ensures !c.CanClaim(s, id) ==> c.Popped(s, id) == s && IsOffer(c, c.Popped(s, id), id)
  {
  }

  ghost predicate IsFreeOffer(c: Caller, s: Snapshot, id: string) {
    IsOffer(c, s, id) && c.CanClaim(s, id)
  }

  /** The cache and the repository could answer so that the search comes to an end. */
  ghost predicate CanEnd(c: Caller, s: Snapshot) {
    exists tried, choice :: Plausible(c, s, tried, choice)
  }

  lemma {:induction false} EndsWith(c: Caller, s: Snapshot, tried: seq<string>, choice: Option<Record>)
    requires !c.redis && Plausible(c, s, tried, choice)
    ensures IdsWith(s.stored, Queued) == {} || IsFreeOffer(c, s, tried[|tried| - 1])
    ensures tried == [] ==> IdsWith(s.stored, Queued) == {}
    decreases |tried|
  {
    if tried != [] && !c.CanClaim(s, tried[0]) {
      LeasedOfferComesBack(c, s, tried[0]);
      EndsWith(c, s, tried[1..], choice);
    }
  }

  /** A memory cache has offered n ads, none of which could be claimed. */
  ghost predicate Spun(c: Caller, s: Snapshot, tried: seq<string>, n: nat) {
    && !c.redis && |tried| == n
    && forall i | 0 <= i < n :: IsOffer(c, s, tried[i]) && !c.CanClaim(s, tried[i])
  }

  /** So there a search can end exactly if nothing is queued or some first choice is free. */
  lemma MemorySearchEndsExactlyWhen(c: Caller, s: Snapshot)
    requires !c.redis
    ensures CanEnd(c, s) <==> IdsWith(s.stored, Queued) == {} || exists id :: IsFreeOffer(c, s, id)
  {
    if IdsWith(s.stored, Queued) == {} {
      assert Plausible(c, s, [], None);
    }
    if id :| IsFreeOffer(c, s, id) {
      assert Plausible(c, s, [id], None);
    }
    if CanEnd(c, s) {
      var tried, choice :| Plausible(c, s, tried, choice);
      EndsWith(c, s, tried, choice);
    }
  }

  lemma FewerCached(scores: Scores, id: string)
    requires id in scores
    ensures |scores - {id}| < |scores|
  {
    assert (scores - {id}).Keys == scores.Keys - {id};
  }

  // ---------- what the search means ----------

  lemma {:induction false} SearchPops(c: Caller, s: Snapshot, tried: seq<string>, choice: Option<Record>)
    requires c.redis && Plausible(c, s, tried, choice)
    ensures PopOrder(s.cached, tried)
    ensures Search(c, s, tried, choice).after.cached == s.cached - IdSet(tried)
    ensures Search(c, s, tried, choice).error != None || choice.Some? ==> Search(c, s, tried, choice).after.cached == map[]
    decreases |tried|
  {
    if tried == [] {
      assert s.cached - IdSet([]) == s.cached;
    } else {
      assert IdSet(tried) == {tried[0]} + IdSet(tried[1..]);
      if c.CanClaim(s, tried[0]) {
        assert tried[1..] == [];
      } else {
        SearchPops(c, c.Popped(s, tried[0]), tried[1..], choice);
      }
    }
  }

  /** Popping an entry and taking its lease leaves every other entry as claimable as it was. */
  lemma PoppedKeepsClaims(c: Caller, s: Snapshot, id: string)
    requires !c.CanClaim(s, id)
    ensures forall other :: c.CanClaim(c.Popped(s, id), other) == c.CanClaim(s, other)
    ensures forall other | other != id :: c.Holds(c.Popped(s, id), other) == c.Holds(s, other)
    ensures forall other | other in IdsWith(s.stored, Queued) ::
      LeasedToOther(c.Popped(s, id).locks, other, c.owner, c.now) == LeasedToOther(s.locks, other, c.owner, c.now)
  {
  }

  lemma FindsAfterSkip(c: Caller, s: Snapshot, id: string, rest: seq<string>, choice: Option<Record>, e: Option<Error>)
    requires !c.CanClaim(s, id)
    requires Finds(s.stored, c.Popped(s, id).locks, c.owner, c.now, rest, choice, e)
    ensures Finds(s.stored, s.locks, c.owner, c.now, [id] + rest, choice, e)
  {
    PoppedKeepsClaims(c, s, id);
    var tried := [id] + rest;
    assert forall i | 0 < i < |tried| :: tried[i] == rest[i - 1];
    assert forall other :: Claimable(s.stored, c.Popped(s, id).locks, other, c.owner, c.now) == c.CanClaim(s, other);
    if choice.Some? && IsLeast(s.stored, Queued, ByPriority, choice.value) {
      assert choice.value.adId in IdsWith(s.stored, Queued);
    }
  }

  lemma {:induction false} SearchFinds(c: Caller, s: Snapshot, tried: seq<string>, choice: Option<Record>)
    requires Plausible(c, s, tried, choice)
    ensures var a := Search(c, s, tried, choice);
      && Finds(s.stored, s.locks, c.owner, c.now, tried, choice, a.error)
      && (a.error.Some? ==> a.after.stored == s.stored && a.delivered.None?)
      && (a.error.None? ==>
            var id := ClaimedId(tried, choice);
            && c.CanClaim(s, id) && a.delivered == Some(AfterClaim(s.stored[id], c.owner))
            && a.after.stored == s.stored[id := a.delivered.value])
    decreases |tried|
  {
    if tried != [] && !c.CanClaim(s, tried[0]) {
      var id, rest := tried[0], tried[1..];
      SearchFinds(c, c.Popped(s, id), rest, choice);
      PoppedKeepsClaims(c, s, id);
      assert tried == [id] + rest;
      FindsAfterSkip(c, s, id, rest, choice, Search(c, c.Popped(s, id), rest, choice).error);
    }
  }

  /** What a successful search delivers and stores, field by field. */
  lemma SearchDelivers(c: Caller, s: Snapshot, tried: seq<string>, choice: Option<Record>)
    requires Plausible(c, s, tried, choice) && Search(c, s, tried, choice).error.None?
    ensures var a, id := Search(c, s, tried, choice), ClaimedId(tried, choice);
      && id in s.stored && s.stored[id].status == Queued
      && var ad := s.stored[id].(status := Processing, workerId := c.owner,
                                 attempts := s.stored[id].attempts + 1, version := s.stored[id].version + 2);
      && a.delivered == Some(ad) && a.after.stored == s.stored[id := ad]
  {
    SearchFinds(c, s, tried, choice);
  }

  ghost function TouchedIds(c: Caller, s: Snapshot, tried: seq<string>): set<string> {
    set id | id in tried && c.Holds(s, id)
  }

  /** Leases after one skipped entry, told from the leases after the rest of the search. */
  lemma LeasesAfterSkip(c: Caller, s: Snapshot, id: string, rest: seq<string>, claimed: Option<string>)
    requires !c.CanClaim(s, id) && id !in rest && claimed != Some(id)
    ensures var lease := LockInfo(c.owner, c.now + c.ttl);
      var kept := s.locks - TouchedIds(c, s, [id] + rest);
      var mid := c.Popped(s, id);
      var after := mid.locks - TouchedIds(c, mid, rest);
      (if claimed.Some? then kept[claimed.value := lease] else kept) ==
      c.Freed(s, mid.(locks := if claimed.Some? then after[claimed.value := lease] else after), id).locks
  {
    PoppedKeepsClaims(c, s, id);
    var mid := c.Popped(s, id);
    assert TouchedIds(c, s, [id] + rest) == TouchedIds(c, mid, rest) + if c.Holds(s, id) then {id} else {};
  }

  lemma {:induction false} SearchLeases(c: Caller, s: Snapshot, tried: seq<string>, choice: Option<Record>)
    requires Plausible(c, s, tried, choice)
    ensures var a := Search(c, s, tried, choice);
      var kept := s.locks - TouchedIds(c, s, tried);
      a.after.locks == if a.error.None? && choice.Some?
                       then kept[choice.value.adId := LockInfo(c.owner, c.now + c.ttl)] else kept
    decreases |tried|
  {
    if tried == [] {
      assert TouchedIds(c, s, []) == {};
    } else {
      var id, rest := tried[0], tried[1..];
      assert tried == [id] + rest;
      if c.CanClaim(s, id) {
        assert TouchedIds(c, s, tried) == {id};
      } else if !c.redis {
        LeasedOfferComesBack(c, s, id);
        SearchLeases(c, s, rest, choice);
        assert TouchedIds(c, s, tried) == TouchedIds(c, s, rest);
      } else {
        var mid := c.Popped(s, id);
        SearchLeases(c, mid, rest, choice);
        SearchPops(c, mid, rest, choice);
        PopOrderMeaning(mid.cached, rest);
        SearchFinds(c, mid, rest, choice);
        var claimed := Search(c, mid, rest, choice).error.None? && choice.Some?;
        PoppedKeepsClaims(c, s, id);
        LeasesAfterSkip(c, s, id, rest, if claimed then Some(choice.value.adId) else None);
      }
    }
  }
}
