/**
 One call at a time on the distributed priority queue (internal/processor/queue.go).

 The methods drive the store step by step as the service does; each is proved against what
 it leaves in the store, the lease table and the cached queue.  `now` is the instant of the
 call.
 */
module Queue {
  import opened Models
  import opened Store
  import opened Memory
  import opened Cache
  import opened DequeueSearch
  import opened Maintenance
  import P = Protocol

  datatype QueueOptions = QueueOptions(
    maxCapacity: int,
    processingTimeout: int,
    lockTtl: int,
    maxAttempts: int,
    agingRate: real,
    maxWaitTime: int)

  class DistributedPriorityQueue {
    const repo: MemoryRepository
    const redis: RedisQueue?   // the cached queue; null when the memory store is its own cache
    const instanceId: string
    const options: QueueOptions
    var closed: bool

    ghost predicate Valid()
      reads repo, repo.Owned, redis
    {
      repo.Valid() && "" !in Cached()
    }

    ghost function Stored(): Ads
      reads repo
    {
      repo.Contents
    }

    /** The cached sorted set; the memory cache keeps none of its own. */
    ghost function Cached(): Scores
      reads redis
    {
      if redis == null then map[] else redis.scores
    }

    constructor (repo: MemoryRepository, redis: RedisQueue?, instanceId: string, options: QueueOptions)
      ensures this.repo == repo && this.redis == redis && this.instanceId == instanceId && this.options == options
      ensures !closed
    {
      this.repo, this.redis, this.instanceId, this.options := repo, redis, instanceId, options;
      closed := false;
    }

    method Close()
      modifies this
      ensures closed
    {
      closed := true;
    }

    method Size() returns (n: nat)
      requires Valid()
      ensures n == |IdsWith(Stored(), Queued)|
    {
      n := repo.CountByStatus(Queued);
    }

    method PushToCache(adId: string, priority: int) returns (e: Option<Error>)
      requires Valid() && adId != ""
      modifies repo`Contents, repo.Owned, redis
      ensures Valid()
      ensures Stored() == if redis == null then Push(old(Stored()), adId, priority) else old(Stored())
      ensures Cached() == if redis != null then old(Cached())[adId := priority] else map[]
      ensures e == if redis == null then PushError(old(Stored()), adId) else None
    {
      if redis == null {
        e := repo.PushToQueue(adId, priority);
      } else {
        redis.PushToQueue(adId, priority);
        e := None;
      }
    }

    /** The ad is stored as queued and offered to the cache. */
    method EnterQueue(ad: Ad, now: int) returns (e: Option<Error>)
      requires Valid() && ad !in repo.Owned
      modifies repo`ads, repo`Contents, repo`Owned, repo.Owned, redis, ad
      ensures Valid() && (forall a | a in repo.Owned :: a in old(repo.Owned) || fresh(a))
      ensures var queued := old(ad.rec).WithStatus(Queued, now);
        && e == UpdateError(old(Stored()), queued)
        && e != Some(QueueClosed) && e != Some(QueueFull)
        && Stored() == Update(old(Stored()), queued)
        && ad.rec == (if e.None? then NextVersion(queued) else queued)
        && Cached() == if redis != null && e.None? then old(Cached())[queued.adId := queued.submission.priority] else old(Cached())
    {
      ad.SetStatus(Queued, now);
      ghost var queued := ad.rec;
      e := repo.Update(ad);
      if e.Some? {
        return;
      }
      PushAfterUpdate(old(Stored()), queued);
      var pushError := PushToCache(ad.rec.adId, ad.rec.effectivePriority);
    }

    /** Refuses when closed or full. */
    method Enqueue(ad: Ad, now: int) returns (e: Option<Error>)
      requires Valid() && ad !in repo.Owned
      modifies repo`ads, repo`Contents, repo`Owned, repo.Owned, redis, ad
      ensures Valid() && (forall a | a in repo.Owned :: a in old(repo.Owned) || fresh(a))
      ensures var full := options.maxCapacity > 0 && |IdsWith(old(Stored()), Queued)| >= options.maxCapacity;
              var queued := old(ad.rec).WithStatus(Queued, now);
              e == if closed then Some(QueueClosed)
                   else if full then Some(QueueFull)
                   else UpdateError(old(Stored()), queued)
      ensures e.Some? ==> Stored() == old(Stored()) && Cached() == old(Cached())
      ensures e == Some(QueueClosed) || e == Some(QueueFull) ==> ad.rec == old(ad.rec)
      ensures e.Some? && e != Some(QueueClosed) && e != Some(QueueFull) ==> ad.rec == old(ad.rec).(status := Queued,
        queuedAt := Some(now), effectivePriority := old(ad.rec).submission.priority)
      ensures e.None? ==>
        var queued := old(ad.rec).(status := Queued, queuedAt := Some(now),
              effectivePriority := old(ad.rec).submission.priority, version := old(ad.rec).version + 1);
        && ad.rec == queued
        && Stored() == old(Stored())[queued.adId := queued]
        && Cached() == if redis != null then old(Cached())[queued.adId := queued.submission.priority] else map[]
    {
      if closed {
        return Some(QueueClosed);
      }
      if options.maxCapacity > 0 {
        var count := repo.CountByStatus(Queued);
        if count >= options.maxCapacity {
          return Some(QueueFull);
        }
      }
      e := EnterQueue(ad, now);
    }

    // ---------- Dequeue ----------

    /** The next cached ID, if the cache has one; the memory cache keeps its ads. */
    method PopFromCache() returns (r: Result<string>)
      requires Valid()
      modifies redis
      ensures Valid()
      ensures redis != null ==>
        && (r.Err? <==> old(Cached()) == map[])
        && (r.Err? ==> Cached() == map[])
        && (r.Ok? ==> IsLeastScore(old(Cached()), r.value) && Cached() == old(Cached()) - {r.value})
      ensures redis == null ==>
        && (r.Err? <==> IdsWith(Stored(), Queued) == {})
        && (r.Ok? ==> r.value in Stored() && IsLeast(Stored(), Queued, ByPop, Stored()[r.value]))
    {
      if redis == null {
        r := repo.PopFromQueue();
      } else {
        r := redis.PopFromQueue();
      }
    }

    /** The second write of a claim: fetch the ad, sign it, count the attempt, store it. */
    method SignClaim(adId: string) returns (e: Option<Error>, ad: Ad)
      requires Valid() && adId in Stored()
      modifies repo`ads, repo`Contents, repo`Owned, repo.Owned
      ensures Valid() && (forall a | a in repo.Owned :: a in old(repo.Owned) || fresh(a)) && fresh(ad)
      ensures e == None && ad.rec == NextVersion(old(Stored())[adId].ClaimedBy(instanceId))
      ensures Stored() == old(Stored())[adId := ad.rec]
    {
      e, ad := repo.Get(adId);
      ad.AssignWorker(instanceId);
      var attempts := ad.IncrementAttempts();
      e := repo.Update(ad);
    }

    /**
     The two writes of a claim: the status compare-and-swap, then the worker and the attempt.
     Both paths of Dequeue make these calls.
     */
    method Claim(adId: string, version: int, now: int) returns (e: Option<Error>, ad: Ad?)
      requires Valid() && adId in Stored()
      modifies repo`ads, repo`Contents, repo`Owned, repo.Owned
      ensures Valid() && (forall a | a in repo.Owned :: a in old(repo.Owned) || fresh(a))
      ensures e == CasError(old(Stored()), adId, version, Queued)
      ensures e.Some? ==> ad == null && Stored() == old(Stored()) && repo.Owned == old(repo.Owned)
      ensures e.None? ==>
        && ad != null && fresh(ad)
        && ad.rec == old(Stored())[adId].(status := Processing, workerId := instanceId,
             attempts := old(Stored())[adId].attempts + 1, version := version + 2)
        && Stored() == old(Stored())[adId := ad.rec]
    {
      e := repo.AtomicStatusUpdate(adId, version, Queued, Processing, now);
      if e.Some? {
        return e, null;
      }
      ghost var swapped := Stored();
      assert repo.Owned == old(repo.Owned);
      e, ad := SignClaim(adId);
      assert Stored() == swapped[adId := ad.rec];
    }

    ghost function Now(): Snapshot
      reads repo, redis
    {
      Snapshot(Stored(), repo.locks, Cached())
    }

    function Me(now: int): Caller {
      Caller(instanceId, now, options.lockTtl, redis != null)
    }

    /**
     What Dequeue does with a popped ID, up to its return.  `retry` says that the entry led
     nowhere and Dequeue starts over; `held` that its lease is to be released on return.
     */
    method TryPopped(adId: string, now: int) returns (retry: bool, held: bool, e: Option<Error>, ad: Ad?)
      requires Valid() && adId != ""
      modifies repo, repo.Owned
      ensures Valid() && (forall a | a in repo.Owned :: a in old(repo.Owned) || fresh(a)) && Cached() == old(Cached())
      ensures retry == !Me(now).CanClaim(old(Now()), adId)
      ensures held == Me(now).Holds(old(Now()), adId)
      ensures repo.locks == if held then old(repo.locks)[adId := LockInfo(instanceId, now + options.lockTtl)] else old(repo.locks)
      ensures retry ==> ad == null && Stored() == old(Stored()) && repo.Owned == old(repo.Owned)
      ensures !retry ==>
        && e == None && ad != null && fresh(ad) && ad.rec == AfterClaim(old(Stored())[adId], instanceId)
        && Stored() == old(Stored())[adId := ad.rec]
    {
      var error, found := repo.Get(adId);
      if error == Some(AdNotFound) {
        return true, false, None, null;
      }
      if !found.rec.IsProcessable() {
        return true, false, None, null;
      }
      var locked := repo.AcquireLock(found.rec.adId, instanceId, options.lockTtl, now);
      if !locked {
        return true, false, None, null;
      }
      e, ad := Claim(found.rec.adId, found.rec.version, now);
      return e == Some(ConcurrentModification), true, e, ad;
    }

    /** Takes the lease of the repository's first choice and claims it. */
    method ClaimChoice(first: Record, now: int) returns (e: Option<Error>, ad: Ad?)
      requires Valid() && first.adId in Stored() && Stored()[first.adId] == first && first.status == Queued
      modifies repo, repo.Owned
      ensures Valid() && (forall a | a in repo.Owned :: a in old(repo.Owned) || fresh(a)) && (ad != null ==> fresh(ad))
      ensures Answer(Now(), e, Value(ad)) == StoreAnswer(Me(now), old(Now()), Some(first))
    {
      var locked := repo.AcquireLock(first.adId, instanceId, options.lockTtl, now);
      if !locked {
        return Some(ItemLocked), null;
      }
      e, ad := Claim(first.adId, first.version, now);
      assert ad.rec == AfterClaim(first, instanceId);
      assert Stored() == old(Stored())[first.adId := ad.rec];
    }

    /** The slower path: the repository's own first choice, or nothing. */
    method DequeueFromStore(now: int) returns (e: Option<Error>, ad: Ad?, ghost choice: Option<Record>)
      requires Valid()
      modifies repo, repo.Owned
      ensures Valid() && (forall a | a in repo.Owned :: a in old(repo.Owned) || fresh(a)) && (ad != null ==> fresh(ad))
      ensures IsStoreChoice(old(Now()), choice)
      ensures Answer(Now(), e, Value(ad)) == StoreAnswer(Me(now), old(Now()), choice)
    {
      var ads := repo.FindByPriority(Queued, 1);
      ghost var full :| Listing(Stored(), Queued, ByPriority, full) && ads == Page(full, 1, 0);
      ListingHeadIsLeast(Stored(), Queued, ByPriority, full);
      if |ads| == 0 {
        return Some(QueueEmpty), null, None;
      }
      choice := Some(ads[0]);
      e, ad := ClaimChoice(ads[0], now);
    }

    /** The deferred release. */
    method ReleaseIfHeld(adId: string, held: bool)
      requires Valid()
      modifies repo`locks
      ensures Valid()
      ensures repo.locks == if held then Release(old(repo.locks), adId, instanceId) else old(repo.locks)
    {
      if held {
        var released := repo.ReleaseLock(adId, instanceId);
      }
    }

    /**
     Claims the first popped entry that is stored as queued and free, and failing that the
     repository's first choice.  With Redis every retry has used up one cached entry.  The
     memory cache offers its least queued ad again and again, so there a call need not come
     back while that ad is leased to another owner; `patience` is how many such retries of
     the call are followed, and `spinning` says that it is then still trying.
     */
    method Dequeue(now: int, patience: nat)
      returns (e: Option<Error>, ad: Ad?, spinning: bool, ghost tried: seq<string>, ghost choice: Option<Record>)
      requires Valid()
      modifies repo, repo.Owned, redis
      ensures Valid() && (forall a | a in repo.Owned :: a in old(repo.Owned) || fresh(a)) && (ad != null ==> fresh(ad))
      ensures closed ==> e == Some(QueueClosed) && ad == null && !spinning && Now() == old(Now())
      ensures !closed && !spinning ==>
        && Plausible(Me(now), old(Now()), tried, choice)
        && Answer(Now(), e, Value(ad)) == Search(Me(now), old(Now()), tried, choice)
      ensures spinning ==> ad == null && Now() == old(Now()) && Spun(Me(now), old(Now()), tried, patience + 1)
      decreases |Cached()|, patience, 2
    {
      if closed {
        return Some(QueueClosed), null, false, [], None;
      }
      var popped := PopFromCache();
      if popped.Ok? && popped.value != "" {
        e, ad, spinning, tried, choice := FollowPopped(popped.value, old(Now()), now, patience);
        return;
      }
      e, ad, choice := DequeueFromStore(now);
      spinning, tried := false, [];
    }

    /** The faster path, from a popped ID on; `before` is the state before the pop. */
    method FollowPopped(adId: string, ghost before: Snapshot, now: int, patience: nat)
      returns (e: Option<Error>, ad: Ad?, spinning: bool, ghost tried: seq<string>, ghost choice: Option<Record>)
      requires Valid() && adId != "" && !closed && IsOffer(Me(now), before, adId)
      requires Now() == before.(cached := if redis != null then before.cached - {adId} else before.cached)
      modifies repo, repo.Owned, redis
      ensures Valid() && (forall a | a in repo.Owned :: a in old(repo.Owned) || fresh(a)) && (ad != null ==> fresh(ad))
      ensures !spinning ==>
        && Plausible(Me(now), before, tried, choice)
        && Answer(Now(), e, Value(ad)) == Search(Me(now), before, tried, choice)
      ensures spinning ==> ad == null && Now() == before && Spun(Me(now), before, tried, patience + 1)
      decreases |before.cached|, patience, 1
    {
      var retry, held;
      retry, held, e, ad := TryPopped(adId, now);
      if retry {
        e, ad, spinning, tried, choice := SearchOn(adId, before, now, patience);
      } else {
        spinning, tried, choice := false, [adId], None;
        assert Now() == Me(now).Claimed(Me(now).Popped(before, adId), adId);
      }
      ghost var unfreed := Now();
      ReleaseIfHeld(adId, held);
      assert Now() == Me(now).Freed(before, unfreed, adId);
    }

    /** Starting over after a popped entry that led nowhere. */
    method SearchOn(adId: string, ghost before: Snapshot, now: int, patience: nat)
      returns (e: Option<Error>, ad: Ad?, spinning: bool, ghost tried: seq<string>, ghost choice: Option<Record>)
      requires Valid() && !closed
      requires IsOffer(Me(now), before, adId) && !Me(now).CanClaim(before, adId)
      requires Now() == Me(now).Popped(before, adId)
      modifies repo, repo.Owned, redis
      ensures Valid() && (forall a | a in repo.Owned :: a in old(repo.Owned) || fresh(a)) && (ad != null ==> fresh(ad))
      ensures |tried| > 0 && tried[0] == adId
      ensures !spinning ==>
        && Plausible(Me(now), before, tried, choice)
        && Answer(Now(), e, Value(ad)) == Search(Me(now), Me(now).Popped(before, adId), tried[1..], choice)
      ensures spinning ==> ad == null && Now() == before && Spun(Me(now), before, tried, patience + 1)
      decreases |before.cached|, patience, 0
    {
      if redis == null {
        LeasedOfferComesBack(Me(now), before, adId);
        if patience == 0 {
          return None, null, true, [adId], None;
        }
        e, ad, spinning, tried, choice := Dequeue(now, patience - 1);
      } else {
        FewerCached(before.cached, adId);
        e, ad, spinning, tried, choice := Dequeue(now, patience);
      }
      ghost var rest := tried;
      tried := [adId] + rest;
      assert tried[1..] == rest;
    }

    // ---------- Complete ----------

    /** The second write of a completion: fetch the ad and store it with its analysis. */
    method AttachAnalysis(adId: string, analysis: AdAnalysis) returns (e: Option<Error>)
      requires Valid() && adId in Stored()
      modifies repo`ads, repo`Contents, repo`Owned, repo.Owned
      ensures Valid() && (forall a | a in repo.Owned :: a in old(repo.Owned) || fresh(a))
      ensures e == None
      ensures Stored() == old(Stored())[adId :=
        old(Stored())[adId].(analysis := Some(analysis), version := old(Stored())[adId].version + 1)]
    {
      var updatedAd;
      e, updatedAd := repo.Get(adId);
      updatedAd.SetAnalysisResults(analysis);
      e := repo.Update(updatedAd);
    }

    /** The two writes of a completion: the status compare-and-swap, then the analysis. */
    method StoreAnalysis(adId: string, version: int, analysis: AdAnalysis, now: int) returns (e: Option<Error>)
      requires Valid()
      modifies repo`ads, repo`Contents, repo`Owned, repo.Owned
      ensures Valid() && (forall a | a in repo.Owned :: a in old(repo.Owned) || fresh(a))
      ensures e == CasError(old(Stored()), adId, version, Processing)
      ensures e.Some? ==> Stored() == old(Stored())
      ensures e.None? ==> Stored() == old(Stored())[adId :=
        old(Stored())[adId].(status := Completed, completedAt := Some(now), analysis := Some(analysis), version := version + 2)]
    {
      e := repo.AtomicStatusUpdate(adId, version, Processing, Completed, now);
      if e.Some? {
        return;
      }
      e := AttachAnalysis(adId, analysis);
    }

    /** Takes the lease, completes the ad at the version it was delivered at, and gives the lease back. */
    method Complete(ad: Ad, analysis: AdAnalysis, now: int) returns (e: Option<Error>)
      requires Valid()
      modifies repo, repo.Owned
      ensures Valid() && (forall a | a in repo.Owned :: a in old(repo.Owned) || fresh(a)) && Cached() == old(Cached())
      ensures var id, s := old(ad.rec).adId, old(Stored());
        if LeasedToOther(old(repo.locks), id, instanceId, now) then
          e == Some(ItemLocked) && Now() == old(Now())
        else
          && e == CasError(s, id, old(ad.rec).version, Processing)
          && (e.Some? ==> Stored() == s)
          && (e.None? ==> Stored() == s[id := s[id].(status := Completed, completedAt := Some(now),
                analysis := Some(analysis), version := s[id].version + 2)])
          && repo.locks == old(repo.locks) - {id}
    {
      var adId, currentVersion := ad.rec.adId, ad.rec.version;
      var locked := repo.AcquireLock(adId, instanceId, options.lockTtl, now);
      if !locked {
        return Some(ItemLocked);
      }
      e := StoreAnalysis(adId, currentVersion, analysis, now);
      var released := repo.ReleaseLock(adId, instanceId);
    }

    // ---------- the maintenance passes ----------

    function Settings(): P.Config {
      P.Config(options.maxCapacity, options.maxAttempts, options.agingRate, options.maxWaitTime)
    }

    /** Writes a new effective priority unless the ad has changed since it was listed, and re-pushes it. */
    method Raise(adId: string, currentVersion: int, priority: int) returns (done: bool)
      requires Valid()
      modifies repo`ads, repo`Contents, repo`Owned, repo.Owned, redis
      ensures Valid() && (forall a | a in repo.Owned :: a in old(repo.Owned) || fresh(a))
      ensures done == (adId in old(Stored()) && old(Stored())[adId].version == currentVersion)
      ensures Stored() == if done
        then old(Stored())[adId := old(Stored())[adId].(effectivePriority := priority, version := currentVersion + 1)]
        else old(Stored())
      ensures Cached() == if done && redis != null then old(Cached())[adId := priority] else old(Cached())
    {
      var error, latestAd := repo.Get(adId);
      if error.Some? || latestAd.rec.version != currentVersion {
        return false;
      }
      latestAd.rec := latestAd.rec.(effectivePriority := priority);
      ghost var raised := latestAd.rec;
      error := repo.Update(latestAd);
      PushAfterUpdate(old(Stored()), raised);
      assert latestAd.rec == old(Stored())[adId].(effectivePriority := priority, version := currentVersion + 1);
      assert Stored() == old(Stored())[adId := latestAd.rec];
      error := PushToCache(adId, latestAd.rec.effectivePriority);
      done := true;
    }

    /** One ad of the aging pass. */
    method AgeOne(listed: Record, ghost count: nat, now: int) returns (done: bool)
      requires Valid() && Settings().Valid() && listed.adId in Stored() && Stored()[listed.adId] == listed
      modifies repo`ads, repo`Contents, repo`Owned, repo.Owned, redis
      ensures Valid() && (forall a | a in repo.Owned :: a in old(repo.Owned) || fresh(a))
      ensures Progress(Stored(), Cached(), count + if done then 1 else 0) ==
              PassOne(Settings(), P.Aging, redis != null, old(Progress(Stored(), Cached(), count)), listed, now)
    {
      if listed.queuedAt.None? {
        return false;
      }
      var ad := new Ad(listed);
      var currentVersion, originalPriority := ad.rec.version, ad.rec.effectivePriority;
      var newPriority := ad.CalculateEffectivePriority(options.agingRate, options.maxWaitTime, now);
      if newPriority != originalPriority {
        done := Raise(listed.adId, currentVersion, newPriority);
      } else {
        done := false;
      }
    }

    /** The aging pass over the newest queued ads; returns how many it rewrote. */
    method UpdateQueuePriorities(now: int) returns (count: nat, ghost full: seq<Record>, ghost page: seq<Record>)
      requires Valid() && Settings().Valid()
      modifies repo`ads, repo`Contents, repo`Owned, repo.Owned, redis
      ensures Valid() && (forall a | a in repo.Owned :: a in old(repo.Owned) || fresh(a))
      ensures IsPage(old(Stored()), Queued, full, page)
      ensures Stored() == PassStore(Settings(), P.Aging, old(Stored()), page, now)
      ensures count == |Rewritten(old(Stored()), Stored())|
      ensures redis != null ==> Cached() == Repushed(Stored(), old(Cached()), Rewritten(old(Stored()), Stored()))
    {
      var ads := repo.FindByStatus(Queued, P.PAGE_SIZE, 0);
      full :| Listing(Stored(), Queued, NewestFirst, full) && ads == Page(full, P.PAGE_SIZE, 0);
      page := ads;
      ListingIsListed(Stored(), Queued, full, ads);
      count := AgeAll(ads, now);
      PassMeaning(Settings(), P.Aging, redis != null, old(Progress(Stored(), Cached(), 0)), ads, now);
    }

    /** The loop of the pass. */
    method AgeAll(ads: seq<Record>, now: int) returns (count: nat)
      requires Valid() && Settings().Valid() && ListedIn(Stored(), ads)
      modifies repo`ads, repo`Contents, repo`Owned, repo.Owned, redis
      ensures Valid() && (forall a | a in repo.Owned :: a in old(repo.Owned) || fresh(a))
      ensures Progress(Stored(), Cached(), count) ==
              PassFirst(Settings(), P.Aging, redis != null, old(Progress(Stored(), Cached(), 0)), ads, |ads|, now)
    {
      count := 0;
      ghost var start := Progress(Stored(), Cached(), 0);
      for n := 0 to |ads|
        invariant Valid() && (forall a | a in repo.Owned :: a in old(repo.Owned) || fresh(a))
        invariant Progress(Stored(), Cached(), count) == PassFirst(Settings(), P.Aging, redis != null, start, ads, n, now)
      {
        PassKeepsOthers(Settings(), P.Aging, redis != null, start, ads, n, now);
        var done := AgeOne(ads[n], count, now);
        if done {
          count := count + 1;
        }
      }
    }

    /** One ad of the boost pass. */
    method BoostOne(listed: Record, ghost count: nat, now: int) returns (done: bool)
      requires Valid() && Settings().Valid() && listed.adId in Stored() && Stored()[listed.adId] == listed
      modifies repo`ads, repo`Contents, repo`Owned, repo.Owned, redis
      ensures Valid() && (forall a | a in repo.Owned :: a in old(repo.Owned) || fresh(a))
      ensures Progress(Stored(), Cached(), count + if done then 1 else 0) ==
              PassOne(Settings(), P.Boosting, redis != null, old(Progress(Stored(), Cached(), count)), listed, now)
    {
      if listed.queuedAt.None? {
        return false;
      }
      if listed.HasExceededMaxWaitTime(options.maxWaitTime, now) {
        done := Raise(listed.adId, listed.version, 1);
      } else {
        done := false;
      }
    }

    /** The boost pass: newest queued ads that waited too long go to priority 1. */
    method BoostLowPriorityItems(now: int) returns (e: Option<Error>, count: nat, ghost full: seq<Record>, ghost page: seq<Record>)
      requires Valid() && Settings().Valid()
      modifies repo`ads, repo`Contents, repo`Owned, repo.Owned, redis
      ensures Valid() && (forall a | a in repo.Owned :: a in old(repo.Owned) || fresh(a))
      ensures closed ==> e == Some(QueueClosed) && count == 0 && Now() == old(Now())
      ensures !closed ==>
        && e == None && IsPage(old(Stored()), Queued, full, page)
        && Stored() == PassStore(Settings(), P.Boosting, old(Stored()), page, now)
        && count == |Rewritten(old(Stored()), Stored())|
        && (redis != null ==> Cached() == Repushed(Stored(), old(Cached()), Rewritten(old(Stored()), Stored())))
    {
      if closed {
        return Some(QueueClosed), 0, [], [];
      }
      e := None;
      var ads := repo.FindByStatus(Queued, P.PAGE_SIZE, 0);
      full :| Listing(Stored(), Queued, NewestFirst, full) && ads == Page(full, P.PAGE_SIZE, 0);
      page := ads;
      ListingIsListed(Stored(), Queued, full, ads);
      count := BoostAll(ads, now);
      PassMeaning(Settings(), P.Boosting, redis != null, old(Progress(Stored(), Cached(), 0)), ads, now);
    }

    /** The loop of the pass. */
    method BoostAll(ads: seq<Record>, now: int) returns (count: nat)
      requires Valid() && Settings().Valid() && ListedIn(Stored(), ads)
      modifies repo`ads, repo`Contents, repo`Owned, repo.Owned, redis
      ensures Valid() && (forall a | a in repo.Owned :: a in old(repo.Owned) || fresh(a))
      ensures Progress(Stored(), Cached(), count) ==
              PassFirst(Settings(), P.Boosting, redis != null, old(Progress(Stored(), Cached(), 0)), ads, |ads|, now)
    {
      count := 0;
      ghost var start := Progress(Stored(), Cached(), 0);
      for n := 0 to |ads|
        invariant Valid() && (forall a | a in repo.Owned :: a in old(repo.Owned) || fresh(a))
        invariant Progress(Stored(), Cached(), count) == PassFirst(Settings(), P.Boosting, redis != null, start, ads, n, now)
      {
        PassKeepsOthers(Settings(), P.Boosting, redis != null, start, ads, n, now);
        var done := BoostOne(ads[n], count, now);
        if done {
          count := count + 1;
        }
      }
    }

    /** An ad that has expired and has attempts left goes back to the queue, at its original priority. */
    method ReturnToQueue(listed: Record) returns (e: Option<Error>)
      requires Valid() && listed.adId != ""
      modifies repo`Contents, repo.Owned, redis
      ensures Valid()
      ensures e == CasError(old(Stored()), listed.adId, listed.version, Processing)
      ensures e.Some? ==> Stored() == old(Stored()) && Cached() == old(Cached())
      ensures e.None? ==>
        var ad := old(Stored())[listed.adId];
        var back := ad.(status := Queued, version := listed.version + 1);
        && Stored() == old(Stored())[ad.adId :=
             if redis != null then back else back.(effectivePriority := ad.submission.priority)]
        && Cached() == if redis != null then old(Cached())[ad.adId := ad.submission.priority] else old(Cached())
    {
      e := repo.AtomicStatusUpdate(listed.adId, listed.version, Processing, Queued, 0);
      if e.Some? {
        return;
      }
      var updatedAd;
      e, updatedAd := repo.Get(listed.adId);
      PushAfterCas(old(Stored()), listed.adId, Processing, Queued, 0, updatedAd.rec.submission.priority);
      assert updatedAd.rec == old(Stored())[listed.adId].(status := Queued, version := listed.version + 1);
      assert Stored() == old(Stored())[listed.adId := updatedAd.rec];
      e := PushToCache(updatedAd.rec.adId, updatedAd.rec.submission.priority);
    }

    /** An ad that has expired and has no attempt left fails. */
    method Fail(listed: Record, now: int) returns (e: Option<Error>)
      requires Valid()
      modifies repo`ads, repo`Contents, repo`Owned, repo.Owned
      ensures Valid() && (forall a | a in repo.Owned :: a in old(repo.Owned) || fresh(a))
      ensures e == UpdateError(old(Stored()), listed)
      ensures e.Some? ==> Stored() == old(Stored())
      ensures e.None? ==> Stored() == old(Stored())[listed.adId :=
        listed.(status := Failed, error := "Exceeded maximum processing attempts", version := listed.version + 1)]
    {
      var ad := new Ad(listed);
      ad.SetError(MAX_ATTEMPTS_ERROR, now);
      ghost var failed := ad.rec;
      assert failed == listed.(status := Failed, error := "Exceeded maximum processing attempts");
      e := repo.Update(ad);
      UpdateLiterally(old(Stored()), failed);
    }

    /** One ad of the expiry pass. */
    method ExpireListed(listed: Record, ghost count: nat, cutoff: int, now: int) returns (returned: bool)
      requires Valid() && listed.adId in Stored() && Stored()[listed.adId] == listed && listed.status == Processing
      modifies repo`ads, repo`Contents, repo`Owned, repo.Owned, redis
      ensures Valid() && (forall a | a in repo.Owned :: a in old(repo.Owned) || fresh(a))
      ensures Progress(Stored(), Cached(), count + if returned then 1 else 0) ==
              ExpireOne(Settings(), redis != null, old(Progress(Stored(), Cached(), count)), listed, cutoff)
    {
      if !listed.HasExpired(cutoff) {
        return false;
      }
      if listed.attempts >= options.maxAttempts {
        var e := Fail(listed, now);
        return false;
      }
      var e := ReturnToQueue(listed);
      returned := e.None?;
    }

    method ExpireAll(ads: seq<Record>, cutoff: int, now: int) returns (count: nat)
      requires Valid() && ListedIn(Stored(), ads) && forall i | 0 <= i < |ads| :: ads[i].status == Processing
      modifies repo`ads, repo`Contents, repo`Owned, repo.Owned, redis
      ensures Valid() && (forall a | a in repo.Owned :: a in old(repo.Owned) || fresh(a))
      ensures Progress(Stored(), Cached(), count) ==
              ExpireFirst(Settings(), redis != null, old(Progress(Stored(), Cached(), 0)), ads, |ads|, cutoff)
    {
      count := 0;
      ghost var start := Progress(Stored(), Cached(), 0);
      for n := 0 to |ads|
        invariant Valid() && (forall a | a in repo.Owned :: a in old(repo.Owned) || fresh(a))
        invariant Progress(Stored(), Cached(), count) == ExpireFirst(Settings(), redis != null, start, ads, n, cutoff)
      {
        ExpiryKeepsOthers(Settings(), redis != null, start, ads, n, cutoff);
        var returned := ExpireListed(ads[n], count, cutoff, now);
        if returned {
          count := count + 1;
        }
      }
    }

    /** Ads that began to be processed before this instant have expired. */
    function Cutoff(now: int): int {
      now - options.processingTimeout
    }

    /** The expiry pass over the newest processing ads; returns how many it put back into the queue. */
    method RequeueExpired(now: int) returns (e: Option<Error>, count: nat, ghost full: seq<Record>, ghost page: seq<Record>)
      requires Valid()
      modifies repo`ads, repo`Contents, repo`Owned, repo.Owned, redis
      ensures Valid() && (forall a | a in repo.Owned :: a in old(repo.Owned) || fresh(a))
      ensures closed ==> e == Some(QueueClosed) && count == 0 && Now() == old(Now())
      ensures !closed ==>
        && e == None && IsPage(old(Stored()), Processing, full, page)
        && Cutoff(now) == now - options.processingTimeout
        && Stored() == ExpiryStore(Settings(), redis != null, old(Stored()), page, Cutoff(now))
        && count == |ReturnedIds(Settings(), old(Stored()), page, Cutoff(now))|
        && (redis != null ==> Cached() == ExpiryScores(Settings(), old(Stored()), old(Cached()), page, Cutoff(now)))
    {
      if closed {
        return Some(QueueClosed), 0, [], [];
      }
      e := None;
      var ads := repo.FindByStatus(Processing, P.PAGE_SIZE, 0);
      full :| Listing(Stored(), Processing, NewestFirst, full) && ads == Page(full, P.PAGE_SIZE, 0);
      page := ads;
      ListingIsListed(Stored(), Processing, full, ads);
      count := ExpireAll(ads, Cutoff(now), now);
      ExpiryAddsUp(Settings(), redis != null, old(Progress(Stored(), Cached(), 0)), ads, Cutoff(now));
    }
  }

  ghost function Value(ad: Ad?): Option<Record>
    reads ad
  {
    if ad == null then None else Some(ad.rec)
  }
}
