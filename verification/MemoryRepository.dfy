/**
 The in-memory store (internal/storage/memory/memory_store.go): a map of mutable ad
 objects and a map of leases.  Save, Get and Update copy; AtomicStatusUpdate and
 PushToQueue change the stored object in place.  Every method is proved against the
 function of module Store with the same meaning, on the view of the stored values.
 */
module Memory {
  import opened Models
  import opened Store

  class MemoryRepository {
    ghost var Contents: Ads      // the stored values
    ghost var Owned: set<Ad>     // every object this repository has ever stored
    var ads: map<string, Ad>
    var locks: Locks

    ghost predicate Valid()
      reads this, Owned
      ensures Valid() ==> WellKeyed(Contents)
    {
      && Contents.Keys == ads.Keys
      && forall id | id in ads ::
           id != "" && ads[id] in Owned && Contents[id] == ads[id].rec && ads[id].rec.adId == id
    }

    constructor ()
      ensures Valid() && Contents == map[] && locks == map[] && Owned == {}
    {
      ads, locks, Contents, Owned := map[], map[], map[], {};
    }

    /** Stores a copy, replacing whatever was stored under the ID. */
    method Save(ad: Ad) returns (r: Result<string>)
      requires Valid()
      modifies this`ads, this`Contents, this`Owned
      ensures Valid() && (forall a | a in Owned :: a in old(Owned) || fresh(a))
      ensures ad.rec.adId == "" ==> r == Err(InvalidAdData) && Contents == old(Contents)
      ensures ad.rec.adId != "" ==> r == Ok(ad.rec.adId) && Contents == old(Contents)[ad.rec.adId := ad.rec]
    {
      if ad.rec.adId == "" {
        return Err(InvalidAdData);
      }
      var adCopy := new Ad(ad.rec);
      ads, Contents, Owned := ads[ad.rec.adId := adCopy], Contents[ad.rec.adId := ad.rec], Owned + {adCopy};
      r := Ok(ad.rec.adId);
    }

    /** A fresh copy of the stored ad. */
    method Get(adId: string) returns (e: Option<Error>, ad: Ad)
      requires Valid()
      ensures fresh(ad)
      ensures match Store.Get(Contents, adId)
              case Err(error) => e == Some(error)
              case Ok(value) => e == None && ad.rec == value
    {
      if adId == "" {
        ad := new Ad.New(NO_SUBMISSION, 0);
        return Some(InvalidAdData), ad;
      }
      if adId !in ads {
        ad := new Ad.New(NO_SUBMISSION, 0);
        return Some(AdNotFound), ad;
      }
      ad := new Ad(ads[adId].rec);
      e := None;
    }

    /** A versioned overwrite: on success the caller's ad carries the new version too. */
    method Update(ad: Ad) returns (e: Option<Error>)
      requires Valid()
      modifies this`ads, this`Contents, this`Owned, ad
      ensures Valid() && (forall a | a in Owned :: a in old(Owned) || fresh(a))
      ensures e == UpdateError(old(Contents), old(ad.rec))
      ensures Contents == Store.Update(old(Contents), old(ad.rec))
      ensures ad.rec == if e.None? then NextVersion(old(ad.rec)) else old(ad.rec)
    {
      if ad.rec.adId == "" {
        return Some(InvalidAdData);
      }
      if ad.rec.adId !in ads {
        return Some(AdNotFound);
      }
      var existing := ads[ad.rec.adId];
      if existing.rec.version != ad.rec.version {
        return Some(ConcurrentModification);
      }
      ad.rec := ad.rec.(version := ad.rec.version + 1);
      var adCopy := new Ad(ad.rec);
      ads, Contents, Owned := ads[ad.rec.adId := adCopy], Contents[ad.rec.adId := ad.rec], Owned + {adCopy};
      e := None;
    }

    /** The status compare-and-swap, in place. */
    method AtomicStatusUpdate(adId: string, currentVersion: int, fromStatus: AdStatus, toStatus: AdStatus, now: int)
      returns (e: Option<Error>)
      requires Valid()
      modifies this`Contents, Owned
      ensures Valid()
      ensures e == CasError(old(Contents), adId, currentVersion, fromStatus)
      ensures Contents == Cas(old(Contents), adId, currentVersion, fromStatus, toStatus, now)
    {
      if adId !in ads {
        return Some(AdNotFound);
      }
      var ad := ads[adId];
      if ad.rec.version != currentVersion {
        return Some(ConcurrentModification);
      }
      if ad.rec.status != fromStatus {
        return Some(ConcurrentModification);
      }
      SwapStatus(ad, toStatus, now);
      e := None;
    }

    /** The in-place writes of a compare-and-swap that passed its tests. */
    method SwapStatus(ad: Ad, toStatus: AdStatus, now: int)
      requires Valid() && ad.rec.adId in ads && ads[ad.rec.adId] == ad
      modifies this`Contents, ad
      ensures Valid()
      ensures Contents == old(Contents)[old(ad.rec).adId := Swapped(old(ad.rec), toStatus, now)]
    {
      ad.rec := ad.rec.(status := toStatus, version := ad.rec.version + 1);
      if toStatus == Completed {
        ad.rec := ad.rec.(completedAt := Some(now));
      }
      Contents := Contents[ad.rec.adId := ad.rec];
    }

    /** Pushing into the memory queue only rewrites the effective priority, in place and unversioned. */
    method PushToQueue(adId: string, priority: int) returns (e: Option<Error>)
      requires Valid()
      modifies this`Contents, Owned
      ensures Valid()
      ensures e == PushError(old(Contents), adId)
      ensures Contents == Push(old(Contents), adId, priority)
    {
      if adId == "" {
        return Some(InvalidAdData);
      }
      if adId !in ads {
        return Some(AdNotFound);
      }
      var ad := ads[adId];
      ad.rec := ad.rec.(effectivePriority := priority);
      Contents := Contents[adId := ad.rec];
      e := None;
    }

    // ---------- selections ----------

    /** Copies of the ads of one status, in the order the map happens to give. */
    method Collect(status: AdStatus) returns (result: seq<Record>)
      requires Valid()
      ensures Enumerates(Contents, status, result)
    {
      result := [];
      var rest := ads.Keys;
      while rest != {}
        invariant rest <= ads.Keys
        invariant DistinctIds(result)
        invariant forall i | 0 <= i < |result| ::
          result[i].adId in Contents && Contents[result[i].adId] == result[i] && result[i].status == status
          && result[i].adId !in rest
        invariant forall id | id in ads && id !in rest && Contents[id].status == status :: Contents[id] in result
        decreases rest
      {
        var id :| id in rest;
        rest := rest - {id};
        if ads[id].rec.status == status {
          result := result + [ads[id].rec];
        }
      }
    }

    method FindByStatus(status: AdStatus, limit: nat, offset: nat) returns (page: seq<Record>)
      requires Valid()
      ensures IsPageOf(Contents, status, NewestFirst, limit, offset, page)
    {
      var result := Collect(status);
      var sorted := SortSlice(result, NewestFirst);
      SortedEnumerates(Contents, status, result, sorted);
      assert Listing(Contents, status, NewestFirst, sorted);
      if offset >= |sorted| {
        return [];
      }
      var end := offset + limit;
      if end > |sorted| {
        end := |sorted|;
      }
      page := sorted[offset..end];
    }

    method FindByPriority(status: AdStatus, limit: nat) returns (page: seq<Record>)
      requires Valid()
      ensures IsPageOf(Contents, status, ByPriority, limit, 0, page)
    {
      var result := Collect(status);
      var sorted := SortSlice(result, ByPriority);
      SortedEnumerates(Contents, status, result, sorted);
      assert Listing(Contents, status, ByPriority, sorted);
      var count := if limit > |sorted| then |sorted| else limit;
      page := sorted[..count];
      assert page == Page(sorted, limit, 0);
    }

    method CountByStatus(status: AdStatus) returns (count: nat)
      requires Valid()
      ensures count == |IdsWith(Contents, status)|
    {
      count := 0;
      var rest := ads.Keys;
      ghost var matching := IdsWith(Contents, status);
      assert matching - rest == {};
      while rest != {}
        invariant rest <= ads.Keys
        invariant count == |matching - rest|
        decreases rest
      {
        var id :| id in rest;
        RemoveOne(matching, rest, id);
        rest := rest - {id};
        if ads[id].rec.status == status {
          count := count + 1;
        }
      }
      assert matching - rest == matching;
    }

    /** The ID of a queued ad that comes first; it stays stored and queued. */
    method PopFromQueue() returns (r: Result<string>)
      requires Valid()
      ensures r.Ok? ==> r.value in Contents && IsLeast(Contents, Queued, ByPop, Contents[r.value])
      ensures r.Err? ==> r.error == AdNotFound
      ensures r.Err? <==> IdsWith(Contents, Queued) == {}
    {
      var queuedAds := Collect(Queued);
      var sorted := SortSlice(queuedAds, ByPop);
      SortedEnumerates(Contents, Queued, queuedAds, sorted);
      ListingHeadIsLeast(Contents, Queued, ByPop, sorted);
      if |sorted| == 0 {
        return Err(AdNotFound);
      }
      r := Ok(sorted[0].adId);
    }

    // ---------- leases ----------

    method AcquireLock(adId: string, ownerId: string, ttl: int, now: int) returns (acquired: bool)
      requires Valid()
      modifies this`locks
      ensures Valid()
      ensures acquired == !LeasedToOther(old(locks), adId, ownerId, now)
      ensures locks == Acquire(old(locks), adId, ownerId, ttl, now)
    {
      if adId in locks {
        var lock := locks[adId];
        if now > lock.expiresAt {
          locks := locks[adId := LockInfo(ownerId, now + ttl)];
          return true;
        }
        if ownerId != lock.ownerId {
          return false;
        }
        locks := locks[adId := LockInfo(ownerId, now + ttl)];
        return true;
      }
      locks := locks[adId := LockInfo(ownerId, now + ttl)];
      acquired := true;
    }

    method ReleaseLock(adId: string, ownerId: string) returns (released: bool)
      requires Valid()
      modifies this`locks
      ensures Valid()
      ensures released == CanRelease(old(locks), adId, ownerId)
      ensures locks == Release(old(locks), adId, ownerId)
    {
      if adId in locks {
        if locks[adId].ownerId == ownerId {
          locks := locks - {adId};
          return true;
        }
        return false;
      }
      released := true;
    }
  }

  lemma RemoveOne(all: set<string>, rest: set<string>, id: string)
    requires id in rest
    ensures |all - (rest - {id})| == |all - rest| + if id in all then 1 else 0
  {
    if id in all {
      assert all - (rest - {id}) == (all - rest) + {id};
    } else {
      assert all - (rest - {id}) == all - rest;
    }
  }

  const NO_SUBMISSION := AdSubmission("", "", "", [], [], "", 0, 0)

  // ---------- sort.Slice ----------

  /** Some permutation of xs in the given order; ties in any order. */
  method SortSlice(xs: seq<Record>, o: Order) returns (ys: seq<Record>)
    ensures multiset(ys) == multiset(xs)
    ensures Sorted(ys, o)
  {
    ys := [];
    for n := 0 to |xs|
      invariant multiset(ys) == multiset(xs[..n])
      invariant Sorted(ys, o)
    {
      assert xs[..n + 1] == xs[..n] + [xs[n]];
      ys := Inserted(ys, xs[n], o);
    }
    assert xs[..|xs|] == xs;
  }

  /** x put behind everything it does not come before. */
  method Inserted(ys: seq<Record>, x: Record, o: Order) returns (zs: seq<Record>)
    requires Sorted(ys, o)
    ensures Sorted(zs, o) && multiset(zs) == multiset(ys) + multiset{x}
  {
    var k := |ys|;
    while k > 0 && Before(o, x, ys[k - 1])
      invariant 0 <= k <= |ys|
      invariant forall i | k <= i < |ys| :: Before(o, x, ys[i])
    {
      k := k - 1;
    }
    InsertSorted(ys, k, x, o);
    assert ys == ys[..k] + ys[k..];
    zs := ys[..k] + [x] + ys[k..];
  }

  lemma BeforeIsStrictWeak(o: Order, a: Record, b: Record, c: Record)
    ensures Before(o, a, b) ==> !Before(o, b, a)
    ensures !Before(o, b, a) && !Before(o, c, b) ==> !Before(o, c, a)
  {
  }

  lemma InsertSorted(ys: seq<Record>, k: nat, x: Record, o: Order)
    requires Sorted(ys, o) && k <= |ys|
    requires k > 0 ==> !Before(o, x, ys[k - 1])
    requires forall i | k <= i < |ys| :: Before(o, x, ys[i])
    ensures Sorted(ys[..k] + [x] + ys[k..], o)
  {
    var zs := ys[..k] + [x] + ys[k..];
    forall i, j | 0 <= i < j < |zs| ensures !Before(o, zs[j], zs[i]) {
      if i < k && j == k && i < k - 1 {
        BeforeIsStrictWeak(o, ys[i], ys[k - 1], x);
      } else if i == k {
        BeforeIsStrictWeak(o, x, zs[j], x);
      }
    }
  }

  lemma MultiplicityOne(xs: seq<Record>, x: Record)
    requires DistinctIds(xs)
    ensures multiset(xs)[x] <= 1
  {
    if x in xs {
      var i :| 0 <= i < |xs| && xs[i] == x;
      assert xs == xs[..i] + [x] + xs[i + 1..];
      assert x !in xs[..i] && x !in xs[i + 1..];
    }
  }

  /** Sorting a selection keeps it a selection. */
  lemma SortedEnumerates(s: Ads, status: AdStatus, xs: seq<Record>, ys: seq<Record>)
    requires Enumerates(s, status, xs) && multiset(ys) == multiset(xs)
    ensures Enumerates(s, status, ys)
  {
    forall i | 0 <= i < |ys| ensures ys[i] in xs {
      assert ys[i] in multiset(ys);
    }
    forall i, j | 0 <= i < j < |ys| ensures ys[i].adId != ys[j].adId {
      if ys[i] == ys[j] {
        assert ys == ys[..i] + [ys[i]] + ys[i + 1..j] + [ys[j]] + ys[j + 1..];
        assert multiset(ys)[ys[i]] >= 2;
        MultiplicityOne(xs, ys[i]);
        assert false;
      }
      assert ys[i] in xs && ys[j] in xs;
    }
    forall id | id in s && s[id].status == status ensures s[id] in ys {
      assert s[id] in multiset(xs);
    }
  }
}
