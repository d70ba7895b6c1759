/**
 Lease safety over every sequence of lock calls with a clock that never runs back
 (internal/storage/memory/memory_store.go, AcquireLock and ReleaseLock).
 */
module Leases {
  import opened Store

  datatype LockCall =
    | AcquireCall(id: string, owner: string, ttl: int, now: int)
    | ReleaseCall(id: string, owner: string, now: int)

  function After(l: Locks, c: LockCall): Locks {
    match c
    case AcquireCall(id, owner, ttl, now) => Acquire(l, id, owner, ttl, now)
    case ReleaseCall(id, owner, _) => Release(l, id, owner)
  }

  /** The lease table after the first n calls, starting from any table. */
  function TableAfter(l: Locks, calls: seq<LockCall>, n: nat): Locks
    requires n <= |calls|
  {
    if n == 0 then l else After(TableAfter(l, calls, n - 1), calls[n - 1])
  }

  predicate ClockRunsForward(calls: seq<LockCall>) {
    forall i, j | 0 <= i < j < |calls| :: calls[i].now <= calls[j].now
  }

  /** Call i acquires: no other owner holds a live lease when it is made. */
  predicate Acquires(l: Locks, calls: seq<LockCall>, i: nat)
    requires i < |calls|
  {
    var c := calls[i];
    c.AcquireCall? && !LeasedToOther(TableAfter(l, calls, i), c.id, c.owner, c.now)
  }

  /** Between calls i and j the owner of call i neither renews nor releases its lease. */
  predicate LeftAlone(calls: seq<LockCall>, i: nat, j: nat)
    requires i < j <= |calls|
  {
    forall k | i < k < j :: !(calls[k].id == calls[i].id && calls[k].owner == calls[i].owner)
  }

  /** While it is live and left alone, a lease stays in the table as it was granted. */
  lemma {:induction false} LeaseStays(l: Locks, calls: seq<LockCall>, i: nat, n: nat)
    requires i < n <= |calls| && ClockRunsForward(calls)
    requires Acquires(l, calls, i) && LeftAlone(calls, i, n)
    requires forall k | i < k < n :: calls[k].now <= calls[i].now + calls[i].ttl
    ensures var c := calls[i];
            var t := TableAfter(l, calls, n);
            c.id in t && t[c.id] == LockInfo(c.owner, c.now + c.ttl)
  {
    if n == i + 1 {
      assert TableAfter(l, calls, n) == After(TableAfter(l, calls, i), calls[i]);
    } else {
      LeaseStays(l, calls, i, n - 1);
      assert TableAfter(l, calls, n) == After(TableAfter(l, calls, n - 1), calls[n - 1]);
      assert calls[n - 1].now <= calls[i].now + calls[i].ttl;
    }
  }

  /**
   Lease safety: after an owner's latest successful acquire at t with time to live d, no
   other owner acquires that ad at any time up to and including t + d, unless the owner
   released it; in particular no stale owner's release opens the way.
   */
  lemma NoOtherOwnerAcquires(l: Locks, calls: seq<LockCall>, i: nat, j: nat)
    requires i < j < |calls| && ClockRunsForward(calls)
    requires Acquires(l, calls, i) && LeftAlone(calls, i, j)
    requires calls[j].id == calls[i].id && calls[j].owner != calls[i].owner
    requires calls[j].now <= calls[i].now + calls[i].ttl
    ensures !Acquires(l, calls, j)
    ensures TableAfter(l, calls, j + 1) == TableAfter(l, calls, j)
  {
    assert forall k | i < k < j :: calls[k].now <= calls[j].now;
    LeaseStays(l, calls, i, j);
  }

  /** While it is live and left alone, whoever calls under the owner's name acquires it again, and nobody else does. */
  lemma OnlyTheOwnersNameAcquires(l: Locks, calls: seq<LockCall>, i: nat, j: nat)
    requires i < j < |calls| && ClockRunsForward(calls)
    requires Acquires(l, calls, i) && LeftAlone(calls, i, j)
    requires calls[j].AcquireCall? && calls[j].id == calls[i].id
    requires calls[j].now <= calls[i].now + calls[i].ttl
    ensures Acquires(l, calls, j) <==> calls[j].owner == calls[i].owner
  {
    assert forall k | i < k < j :: calls[k].now <= calls[j].now;
    LeaseStays(l, calls, i, j);
  }

  /** One instant later the lease is free to take: the bound above is exact. */
  lemma ExpiredLeaseIsFree(l: Locks, calls: seq<LockCall>, i: nat, j: nat)
    requires i < j < |calls| && ClockRunsForward(calls)
    requires Acquires(l, calls, i) && LeftAlone(calls, i, j)
    requires forall k | i < k < j :: calls[k].now <= calls[i].now + calls[i].ttl
    requires calls[j].AcquireCall? && calls[j].id == calls[i].id
    requires calls[j].now > calls[i].now + calls[i].ttl
    ensures Acquires(l, calls, j)
  {
    LeaseStays(l, calls, i, j);
  }
}
