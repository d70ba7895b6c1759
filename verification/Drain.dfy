/**
 Draining a memory-backed queue with one instance and no maintenance in between is a
 priority sort of what was queued.
 */
module Drain {
  import opened Models
  import opened Store
  import opened DequeueSearch
  import opened Maintenance
  import Queue

  ghost function ClaimedStore(s: Ads, owner: string, ids: set<string>): Ads {
    map id | id in s :: if id in ids then AfterClaim(s[id], owner) else s[id]
  }

  /** out is what has been delivered so far of the ads queued in s, leaving the store cur. */
  ghost predicate Drained(s: Ads, cur: Ads, owner: string, out: seq<Record>) {
    && DistinctIds(out)
    && PageIds(out) <= IdsWith(s, Queued)
    && cur == ClaimedStore(s, owner, PageIds(out))
    && (forall i | 0 <= i < |out| :: out[i].adId in s && out[i] == AfterClaim(s[out[i].adId], owner))
    && Sorted(out, ByPop)
    && (forall i, id | 0 <= i < |out| && id in IdsWith(cur, Queued) :: !Before(ByPop, cur[id], out[i]))
  }

  /** No queued ad is leased to another owner. */
  ghost predicate AllFree(c: Caller, s: Snapshot) {
    forall id | id in IdsWith(s.stored, Queued) :: !LeasedToOther(s.locks, id, c.owner, c.now)
  }

  lemma DrainedAtStart(s: Ads, owner: string)
    ensures Drained(s, s, owner, [])
  {
    assert PageIds([]) == {};
  }

  lemma PageIdsExtend(out: seq<Record>, ad: Record)
    ensures PageIds(out + [ad]) == PageIds(out) + {ad.adId}
  {
    var all := out + [ad];
    forall id | id in PageIds(out) ensures id in PageIds(all) {
      var i :| 0 <= i < |out| && out[i].adId == id;
      assert all[i].adId == id;
    }
    assert all[|out|].adId == ad.adId;
  }

  lemma ClaimLeavesQueue(s: Ads, cur: Ads, owner: string, out: seq<Record>, id: string)
    requires WellKeyed(s) && Drained(s, cur, owner, out) && id in IdsWith(cur, Queued)
    ensures id in s && cur[id] == s[id] && id in IdsWith(s, Queued) && id !in PageIds(out)
    ensures IdsWith(cur[id := AfterClaim(cur[id], owner)], Queued) == IdsWith(cur, Queued) - {id}
  {
  }

  /** Delivering a least queued ad next keeps the drain in order. */
  lemma DrainedStep(s: Ads, cur: Ads, owner: string, out: seq<Record>, id: string)
    requires WellKeyed(s) && Drained(s, cur, owner, out)
    requires id in cur && IsLeast(cur, Queued, ByPop, cur[id])
    ensures var ad := AfterClaim(cur[id], owner);
            Drained(s, cur[id := ad], owner, out + [ad])
  {
    var ad := AfterClaim(cur[id], owner);
    var all, next := out + [ad], cur[id := ad];
    ClaimLeavesQueue(s, cur, owner, out, id);
    PageIdsExtend(out, ad);
    assert next == ClaimedStore(s, owner, PageIds(all));
    forall i | 0 <= i < |out| ensures out[i].adId != id && !Before(ByPop, ad, out[i]) {
      assert out[i].adId in PageIds(out);
      assert !Before(ByPop, cur[id], out[i]);
    }
    forall i, other | 0 <= i < |all| && other in IdsWith(next, Queued) ensures !Before(ByPop, next[other], all[i]) {
      assert other in IdsWith(cur, Queued) && next[other] == cur[other];
      assert i < |out| ==> all[i] == out[i];
    }
  }

  lemma FreeNeverSpins(c: Caller, s: Snapshot, tried: seq<string>, n: nat)
    requires AllFree(c, s) && n > 0
    ensures !Spun(c, s, tried, n)
  {
    if !c.redis && tried != [] {
      assert IsOffer(c, s, tried[0]) ==> tried[0] in IdsWith(s.stored, Queued);
    }
  }

  /** A lease that does not keep this owner out now will not do so later. */
  lemma StaysFree(c: Caller, later: Caller, s: Snapshot)
    requires AllFree(c, s) && c.owner == later.owner && c.now <= later.now
    ensures AllFree(later, s)
  {
  }

  /**
   Dequeues until the queue reports empty, the n-th time at the instant clock(n).  Every
   queued ad comes out exactly once, most urgent first and oldest first among equals, and
   none stays queued.
   */
  method DrainQueue(q: Queue.DistributedPriorityQueue, clock: nat -> int) returns (out: seq<Record>)
    requires q.Valid() && q.redis == null && !q.closed
    requires forall i, j | 0 <= i <= j :: clock(i) <= clock(j)
    requires AllFree(q.Me(clock(0)), q.Now())
    modifies q.repo, q.repo.Owned
    ensures q.Valid()
    ensures Drained(old(q.Stored()), q.Stored(), q.instanceId, out)
    ensures IdsWith(q.Stored(), Queued) == {}
    ensures PageIds(out) == IdsWith(old(q.Stored()), Queued)
    ensures forall i | 0 <= i < |out| ::
      var ad := old(q.Stored())[out[i].adId];
      out[i] == ad.(status := Processing, workerId := q.instanceId, attempts := ad.attempts + 1, version := ad.version + 2)
  {
    out := [];
    ghost var s := q.Stored();
    DrainedAtStart(s, q.instanceId);
    var empty, n := false, 0;
    while !empty
      invariant n >= 0
      invariant q.Valid() && (forall a | a in q.repo.Owned :: a in old(q.repo.Owned) || fresh(a))
      invariant AllFree(q.Me(clock(n)), q.Now())
      invariant Drained(s, q.Stored(), q.instanceId, out)
      invariant empty ==> IdsWith(q.Stored(), Queued) == {}
      decreases |IdsWith(q.Stored(), Queued)|, !empty
    {
      var next := Step(q, clock(n), s, out);
      StaysFree(q.Me(clock(n)), q.Me(clock(n + 1)), q.Now());
      n := n + 1;
      if next == [] {
        empty := true;
      }
      out := out + next;
    }
    AllOut(s, q.Stored(), q.instanceId, out);
  }

  /** One dequeue of the drain: the next ad, or nothing when the queue is empty. */
  method Step(q: Queue.DistributedPriorityQueue, now: int, ghost s: Ads, ghost out: seq<Record>) returns (next: seq<Record>)
    requires q.Valid() && q.redis == null && !q.closed && WellKeyed(s)
    requires AllFree(q.Me(now), q.Now())
    requires Drained(s, q.Stored(), q.instanceId, out)
    modifies q.repo, q.repo.Owned
    ensures q.Valid() && (forall a | a in q.repo.Owned :: a in old(q.repo.Owned) || fresh(a))
    ensures AllFree(q.Me(now), q.Now())
    ensures Drained(s, q.Stored(), q.instanceId, out + next)
    ensures if next == [] then IdsWith(q.Stored(), Queued) == {} && q.Stored() == old(q.Stored())
            else |IdsWith(q.Stored(), Queued)| < |IdsWith(old(q.Stored()), Queued)|
  {
    var e, ad, spinning, tried, choice := q.Dequeue(now, 0);
    FreeNeverSpins(q.Me(now), old(q.Now()), tried, 1);
    MemoryDequeue(q.Me(now), old(q.Now()), tried, choice);
    if ad == null {
      assert out + [] == out;
      return [];
    }
    next := [ad.rec];
    ClaimLeavesQueue(s, old(q.Stored()), q.instanceId, out, tried[0]);
    DrainedStep(s, old(q.Stored()), q.instanceId, out, tried[0]);
  }

  /** With the memory as its own cache and no lease in the way, a dequeue delivers a least queued ad. */
  lemma MemoryDequeue(c: Caller, s: Snapshot, tried: seq<string>, choice: Option<Record>)
    requires !c.redis && Plausible(c, s, tried, choice)
    requires AllFree(c, s)
    ensures var a := Search(c, s, tried, choice);
      && AllFree(c, a.after)
      && (if IdsWith(s.stored, Queued) == {} then a.delivered.None? && a.after.stored == s.stored
          else
            && |tried| == 1 && tried[0] in s.stored && IsLeast(s.stored, Queued, ByPop, s.stored[tried[0]])
            && a.delivered == Some(AfterClaim(s.stored[tried[0]], c.owner))
            && a.after.stored == s.stored[tried[0] := a.delivered.value])
  {
    if tried != [] {
      assert tried[0] in IdsWith(s.stored, Queued);
      var after := Search(c, s, tried, choice).after;
      forall id | id in IdsWith(after.stored, Queued) ensures !LeasedToOther(after.locks, id, c.owner, c.now) {
        assert id in IdsWith(s.stored, Queued);
      }
    }
  }

  lemma AllOut(s: Ads, cur: Ads, owner: string, out: seq<Record>)
    requires Drained(s, cur, owner, out) && IdsWith(cur, Queued) == {}
    ensures PageIds(out) == IdsWith(s, Queued)
  {
    forall id | id in IdsWith(s, Queued) ensures id in PageIds(out) {
      assert id in PageIds(out) || id in IdsWith(cur, Queued);
    }
  }
}
