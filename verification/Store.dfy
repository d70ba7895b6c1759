/**
 The meaning of each store operation on values (internal/storage/memory/memory_store.go).

 These functions specify the methods of the class `MemoryRepository`, and they are the
 atomic steps of the interleaved protocol: every store method runs under one mutex.
 */
module Store {
  import opened Models

  type Ads = map<string, Record>

  datatype Error = AdNotFound | ConcurrentModification | InvalidAdData
                 | QueueEmpty | QueueFull | QueueClosed | ItemLocked

  datatype Result<+T> = Ok(value: T) | Err(error: Error)

  /** Every ad is stored under its own nonempty ID. */
  ghost predicate WellKeyed(s: Ads) {
    forall id | id in s :: id != "" && s[id].adId == id
  }

  // ---------- reads and versioned writes ----------

  function Get(s: Ads, id: string): Result<Record> {
    if id == "" then Err(InvalidAdData)
    else if id !in s then Err(AdNotFound)
    else Ok(s[id])
  }

  function UpdateError(s: Ads, ad: Record): Option<Error> {
    if ad.adId == "" then Some(InvalidAdData)
    else if ad.adId !in s then Some(AdNotFound)
    else if s[ad.adId].version != ad.version then Some(ConcurrentModification)
    else None
  }

  function NextVersion(ad: Record): Record {
    ad.(version := ad.version + 1)
  }

  function Update(s: Ads, ad: Record): Ads {
    if UpdateError(s, ad).Some? then s else s[ad.adId := NextVersion(ad)]
  }

  function CasError(s: Ads, id: string, version: int, from: AdStatus): Option<Error> {
    if id !in s then Some(AdNotFound)
    else if s[id].version != version then Some(ConcurrentModification)
    else if s[id].status != from then Some(ConcurrentModification)
    else None
  }

  /** What a successful status compare-and-swap stores: no timestamp except on completion. */
  function Swapped(ad: Record, to: AdStatus, now: int): Record {
    var r := NextVersion(ad.(status := to));
    if to == Completed then r.(completedAt := Some(now)) else r
  }

  function Cas(s: Ads, id: string, version: int, from: AdStatus, to: AdStatus, now: int): Ads {
    if CasError(s, id, version, from).Some? then s else s[id := Swapped(s[id], to, now)]
  }

  function PushError(s: Ads, id: string): Option<Error> {
    if id == "" then Some(InvalidAdData) else if id !in s then Some(AdNotFound) else None
  }

  /** The in-memory PushToQueue: no version bump, no status check. */
  function Push(s: Ads, id: string, priority: int): Ads {
    if PushError(s, id).Some? then s else s[id := s[id].(effectivePriority := priority)]
  }

  /** Pushing the priority just written adds nothing. */
  lemma PushAfterUpdate(s: Ads, ad: Record)
    requires UpdateError(s, ad).None?
    ensures Push(Update(s, ad), ad.adId, ad.effectivePriority) == Update(s, ad) == s[ad.adId := NextVersion(ad)]
  {
    var updated := Update(s, ad);
    assert updated[ad.adId].(effectivePriority := ad.effectivePriority) == updated[ad.adId];
  }

  lemma PushAfterCas(s: Ads, id: string, from: AdStatus, to: AdStatus, now: int, priority: int)
    requires id in s && id != "" && s[id].status == from
    ensures Push(Cas(s, id, s[id].version, from, to, now), id, priority) ==
            s[id := Swapped(s[id], to, now).(effectivePriority := priority)]
  {
  }

  /** What the versioned writes do, field by field. */
  lemma UpdateLiterally(s: Ads, ad: Record)
    ensures UpdateError(s, ad) ==
      if ad.adId == "" then Some(InvalidAdData)
      else if ad.adId !in s then Some(AdNotFound)
      else if ad.version != s[ad.adId].version then Some(ConcurrentModification) else None
    ensures UpdateError(s, ad).Some? ==> Update(s, ad) == s
    ensures UpdateError(s, ad).None? ==> Update(s, ad) == s[ad.adId := ad.(version := s[ad.adId].version + 1)]
  {
  }

  lemma CasLiterally(s: Ads, id: string, version: int, from: AdStatus, to: AdStatus, now: int)
    ensures CasError(s, id, version, from).None? <==> id in s && s[id].version == version && s[id].status == from
    ensures CasError(s, id, version, from).Some? ==>
      Cas(s, id, version, from, to, now) == s
      && CasError(s, id, version, from) == Some(if id in s then ConcurrentModification else AdNotFound)
    ensures CasError(s, id, version, from).None? ==>
      Cas(s, id, version, from, to, now) ==
      s[id := s[id].(status := to, version := version + 1,
                     completedAt := if to == Completed then Some(now) else s[id].completedAt)]
  {
  }

  lemma PushLiterally(s: Ads, id: string, priority: int)
    ensures Push(s, id, priority) == if id != "" && id in s then s[id := s[id].(effectivePriority := priority)] else s
    ensures PushError(s, id) == if id == "" then Some(InvalidAdData) else if id in s then None else Some(AdNotFound)
  {
  }

  /** Equal in everything a version number vouches for. */
  ghost predicate SameButPriority(a: Record, b: Record) {
    a.(effectivePriority := 0) == b.(effectivePriority := 0)
  }

  // ---------- selections ----------

  ghost function IdsWith(s: Ads, status: AdStatus): set<string> {
    set id | id in s && s[id].status == status
  }

  /** The three comparison functions handed to sort.Slice. */
  datatype Order = NewestFirst | ByPriority | ByPop

  predicate Before(o: Order, a: Record, b: Record) {
    match o
    case NewestFirst => a.createdAt > b.createdAt
    case ByPriority =>
      if a.effectivePriority != b.effectivePriority then a.effectivePriority < b.effectivePriority
      else if a.submission.priority != b.submission.priority then a.submission.priority < b.submission.priority
      else a.createdAt < b.createdAt
    case ByPop =>
      if a.effectivePriority != b.effectivePriority then a.effectivePriority < b.effectivePriority
      else a.createdAt < b.createdAt
  }

  ghost predicate Sorted(xs: seq<Record>, o: Order) {
    forall i, j | 0 <= i < j < |xs| :: !Before(o, xs[j], xs[i])
  }

  ghost predicate DistinctIds(xs: seq<Record>) {
    forall i, j | 0 <= i < j < |xs| :: xs[i].adId != xs[j].adId
  }

  /** xs lists the stored ads of one status, each exactly once, in any order. */
  ghost predicate Enumerates(s: Ads, status: AdStatus, xs: seq<Record>) {
    && DistinctIds(xs)
    && (forall i | 0 <= i < |xs| :: xs[i].adId in s && s[xs[i].adId] == xs[i] && xs[i].status == status)
    && (forall id | id in s && s[id].status == status :: s[id] in xs)
  }

  /** A full sorted selection. sort.Slice is not stable, so ties may come in any order. */
  ghost predicate Listing(s: Ads, status: AdStatus, o: Order, xs: seq<Record>) {
    Enumerates(s, status, xs) && Sorted(xs, o)
  }

  function Page<T>(xs: seq<T>, limit: nat, offset: nat): seq<T> {
    if offset >= |xs| then []
    else if offset + limit > |xs| then xs[offset..]
    else xs[offset..offset + limit]
  }

  /** page is the requested part of some sorted selection. */
  ghost predicate IsPageOf(s: Ads, status: AdStatus, o: Order, limit: nat, offset: nat, page: seq<Record>) {
    exists full :: Listing(s, status, o, full) && page == Page(full, limit, offset)
  }

  /** m is a least ad of the given status. */
  ghost predicate IsLeast(s: Ads, status: AdStatus, o: Order, m: Record) {
    && m.adId in s && s[m.adId] == m && m.status == status
    && forall id | id in s && s[id].status == status :: !Before(o, s[id], m)
  }

  lemma ListingHeadIsLeast(s: Ads, status: AdStatus, o: Order, xs: seq<Record>)
    requires Listing(s, status, o, xs)
    ensures xs == [] <==> IdsWith(s, status) == {}
    ensures xs != [] ==> IsLeast(s, status, o, xs[0])
  {
    forall id | id in s && s[id].status == status ensures xs != [] {
      assert s[id] in xs;
    }
    if xs != [] {
      assert xs[0].adId in IdsWith(s, status);
      forall id | id in s && s[id].status == status ensures !Before(o, s[id], xs[0]) {
        assert s[id] in xs;
        var k :| 0 <= k < |xs| && xs[k] == s[id];
        assert k == 0 || !Before(o, xs[k], xs[0]);
      }
    }
  }

  /**
   The fast path orders by (effective priority, age) and the slow path by (effective
   priority, priority, age).  They may pick different ads, but never of different urgency.
   */
  lemma BothPathsAgreeOnUrgency(s: Ads, a: Record, b: Record)
    requires IsLeast(s, Queued, ByPop, a) && IsLeast(s, Queued, ByPriority, b)
    ensures a.effectivePriority == b.effectivePriority
    ensures forall id | id in s && s[id].status == Queued :: a.effectivePriority <= s[id].effectivePriority
  {
    assert !Before(ByPop, s[b.adId], a);
    assert !Before(ByPriority, s[a.adId], b);
    forall id | id in s && s[id].status == Queued ensures a.effectivePriority <= s[id].effectivePriority {
      assert !Before(ByPop, s[id], a);
    }
  }

  /** They pick the same ad exactly when the oldest of the most urgent ads also has the least priority number among them. */
  lemma PathsPickTheSameAd(s: Ads, a: Record)
    requires IsLeast(s, Queued, ByPop, a)
    ensures IsLeast(s, Queued, ByPriority, a) <==>
      forall id | id in s && s[id].status == Queued && s[id].effectivePriority == a.effectivePriority ::
        a.submission.priority <= s[id].submission.priority
  {
    forall id | id in s && s[id].status == Queued
      ensures Before(ByPriority, s[id], a) <==>
        s[id].effectivePriority == a.effectivePriority && s[id].submission.priority < a.submission.priority
    {
      assert !Before(ByPop, s[id], a);
    }
  }

  /** The tie-breaks do differ: two queued ads of one urgency, and each path picks the other. */
  lemma PathsMayPickDifferentAds(a: Record, b: Record)
    requires a.adId != "" && b.adId != "" && a.adId != b.adId
    requires a.status == b.status == Queued && a.effectivePriority == b.effectivePriority
    requires a.createdAt < b.createdAt && a.submission.priority > b.submission.priority
    ensures var s := map[a.adId := a, b.adId := b];
            IsLeast(s, Queued, ByPop, a) && IsLeast(s, Queued, ByPriority, b)
  {
  }

  // ---------- leases ----------

  datatype LockInfo = LockInfo(ownerId: string, expiresAt: int)

  type Locks = map<string, LockInfo>

  /** A lease keeps another owner out up to and including its expiry instant. */
  predicate LeasedToOther(l: Locks, id: string, owner: string, now: int) {
    id in l && l[id].ownerId != owner && now <= l[id].expiresAt
  }

  function Acquire(l: Locks, id: string, owner: string, ttl: int, now: int): Locks {
    if LeasedToOther(l, id, owner, now) then l else l[id := LockInfo(owner, now + ttl)]
  }

  predicate CanRelease(l: Locks, id: string, owner: string) {
    id in l ==> l[id].ownerId == owner
  }

  function Release(l: Locks, id: string, owner: string): Locks {
    if CanRelease(l, id, owner) then l - {id} else l
  }
}
