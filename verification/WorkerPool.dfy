/**
 The worker pool and its auto-scaler (internal/processor/worker.go).

 On values a pool is a map from worker ID to whether that worker still runs.  The class at
 the end is proved to make exactly these moves.
 */
module WorkerPool {
  import opened Models

  type Pool = map<string, bool>

  datatype Limits = Limits(minWorkers: nat, maxWorkers: nat, targetQueueSize: int)

  /** Go's integer division drops the fraction towards zero. */
  function Half(n: int): int {
    if n >= 0 then n / 2 else -((-n) / 2)
  }

  function Started(p: Pool, ids: seq<string>): Pool {
    if ids == [] then p else Started(p, ids[..|ids| - 1])[ids[|ids| - 1] := true]
  }

  function Added(l: Limits, p: Pool, id: string): Pool {
    if |p| >= l.maxWorkers then p else p[id := true]
  }

  /** A removal that waits stops the worker but keeps it in the pool. */
  function Removed(l: Limits, p: Pool, id: string, wait: bool): Pool {
    if id !in p || |p| <= l.minWorkers then p
    else if wait then p[id := false]
    else p - {id}
  }

  /** One scaler tick: newId is the ID a new worker would get, idle a worker without jobs, if there is one. */
  function Scaled(l: Limits, p: Pool, queueSize: nat, newId: string, idle: Option<string>): Pool {
    var p' := if queueSize > l.targetQueueSize && |p| < l.maxWorkers then p[newId := true] else p;
    if queueSize < Half(l.targetQueueSize) && |p| > l.minWorkers && idle.Some? then p' - {idle.value} else p'
  }

  datatype Move =
    | Add(id: string)
    | Remove(id: string, wait: bool)
    | Tick(queueSize: nat, newId: string, idle: Option<string>)

  /** New workers get fresh IDs, and the scaler picks a worker of the pool. */
  predicate CanMove(p: Pool, m: Move) {
    match m
    case Add(id) => id !in p
    case Remove(_, _) => true
    case Tick(_, newId, idle) => newId !in p && (idle.Some? ==> idle.value in p)
  }

  function After(l: Limits, p: Pool, m: Move): Pool {
    match m
    case Add(id) => Added(l, p, id)
    case Remove(id, wait) => Removed(l, p, id, wait)
    case Tick(queueSize, newId, idle) => Scaled(l, p, queueSize, newId, idle)
  }

  /** The pool after the first n moves. */
  function PoolAfter(l: Limits, p: Pool, moves: seq<Move>, n: nat): Pool
    requires n <= |moves|
  {
    if n == 0 then p else After(l, PoolAfter(l, p, moves, n - 1), moves[n - 1])
  }

  predicate CanMoveAt(l: Limits, p: Pool, moves: seq<Move>, n: nat)
    requires n < |moves|
  {
    CanMove(PoolAfter(l, p, moves, n), moves[n])
  }

  predicate CanMoveAll(l: Limits, p: Pool, moves: seq<Move>) {
    forall n: nat | n < |moves| :: CanMoveAt(l, p, moves, n)
  }

  // ---------- what each move does, in numbers ----------

  /** Whatever the target, an addition below the maximum adds one running worker. */
  lemma AdditionAdds(l: Limits, p: Pool, id: string)
    requires |p| < l.maxWorkers && id !in p
    ensures Added(l, p, id).Keys == p.Keys + {id} && Added(l, p, id)[id]
    ensures forall other | other in p :: Added(l, p, id)[other] == p[other]
  {
  }

  /** Above the minimum a removal of a member drops it, or, waiting, stops it and keeps it. */
  lemma RemovalRemoves(l: Limits, p: Pool, id: string)
    requires |p| > l.minWorkers && id in p
    ensures Removed(l, p, id, false).Keys == p.Keys - {id}
    ensures Removed(l, p, id, true).Keys == p.Keys && !Removed(l, p, id, true)[id]
    ensures forall other, wait | other in p && other != id ::
      other in Removed(l, p, id, wait) && Removed(l, p, id, wait)[other] == p[other]
  {
  }

  /** A tick adds a worker exactly above the target and below the maximum. */
  lemma TickAddsExactlyAboveTarget(l: Limits, p: Pool, queueSize: nat, newId: string, idle: Option<string>)
    requires CanMove(p, Tick(queueSize, newId, idle))
    ensures queueSize > l.targetQueueSize && |p| < l.maxWorkers ==> Scaled(l, p, queueSize, newId, idle) == p[newId := true]
    ensures newId in Scaled(l, p, queueSize, newId, idle) <==> queueSize > l.targetQueueSize && |p| < l.maxWorkers
  {
  }

  /** With an idle worker above the minimum, a tick drops it exactly when less than half of the target is queued. */
  lemma TickDropsExactlyBelowHalf(l: Limits, p: Pool, queueSize: nat, newId: string, idle: string)
    requires CanMove(p, Tick(queueSize, newId, Some(idle))) && |p| > l.minWorkers
    ensures var p' := Scaled(l, p, queueSize, newId, Some(idle));
      && (idle !in p' <==> 2 * queueSize + 2 <= l.targetQueueSize)
      && (2 * queueSize + 2 <= l.targetQueueSize ==> p' == p - {idle})
      && (queueSize <= l.targetQueueSize < 2 * queueSize + 2 ==> p' == p)
  {
  }

  // ---------- size ----------

  lemma SizeWithout(p: Pool, id: string)
    ensures |p - {id}| == if id in p then |p| - 1 else |p|
  {
    assert (p - {id}).Keys == p.Keys - {id};
  }

  lemma SizeWith(p: Pool, id: string, running: bool)
    ensures |p[id := running]| == if id in p then |p| else |p| + 1
  {
    assert p[id := running].Keys == p.Keys + {id};
    if id in p {
      assert p[id := running].Keys == p.Keys;
    }
  }

  lemma MoveKeepsSize(l: Limits, p: Pool, m: Move)
    requires l.minWorkers <= |p| <= l.maxWorkers && CanMove(p, m)
    ensures l.minWorkers <= |After(l, p, m)| <= l.maxWorkers
  {
    match m
    case Add(id) => SizeWith(p, id, true);
    case Remove(id, _) => SizeWithout(p, id); SizeWith(p, id, false);
    case Tick(_, newId, idle) =>
      SizeWith(p, newId, true);
      if idle.Some? {
        SizeWithout(p, idle.value);
      }
  }

  lemma {:induction false} StartedSize(ids: seq<string>)
    requires forall i, j | 0 <= i < j < |ids| :: ids[i] != ids[j]
    ensures |Started(map[], ids)| == |ids|
    ensures Started(map[], ids).Keys == set id | id in ids
  {
    if ids != [] {
      var n := |ids| - 1;
      StartedSize(ids[..n]);
      SizeWith(Started(map[], ids[..n]), ids[n], true);
      assert ids == ids[..n] + [ids[n]];
    }
  }

  predicate IsInLimits(l: Limits, p: Pool) {
    l.minWorkers <= |p| <= l.maxWorkers
  }

  lemma NextKeepsSize(l: Limits, p: Pool, moves: seq<Move>, n: nat)
    requires 0 < n <= |moves| && CanMoveAll(l, p, moves) && IsInLimits(l, PoolAfter(l, p, moves, n - 1))
    ensures IsInLimits(l, PoolAfter(l, p, moves, n))
  {
    assert CanMoveAt(l, p, moves, n - 1);
    MoveKeepsSize(l, PoolAfter(l, p, moves, n - 1), moves[n - 1]);
  }

  lemma {:induction false} SizeInLimits(l: Limits, p: Pool, moves: seq<Move>, n: nat)
    requires IsInLimits(l, p) && CanMoveAll(l, p, moves) && n <= |moves|
    ensures IsInLimits(l, PoolAfter(l, p, moves, n))
  {
    if n > 0 {
      SizeInLimits(l, p, moves, n - 1);
      NextKeepsSize(l, p, moves, n);
    }
  }

  /** After one Start, no sequence of moves takes the pool out of its limits. */
  lemma PoolStaysWithinLimits(l: Limits, ids: seq<string>, moves: seq<Move>, n: nat)
    requires l.minWorkers <= l.maxWorkers && |ids| == l.minWorkers
    requires forall i, j | 0 <= i < j < |ids| :: ids[i] != ids[j]
    requires CanMoveAll(l, Started(map[], ids), moves) && n <= |moves|
    ensures l.minWorkers <= |PoolAfter(l, Started(map[], ids), moves, n)| <= l.maxWorkers
  {
    StartedSize(ids);
    SizeInLimits(l, Started(map[], ids), moves, n);
  }

  // ---------- the scaler settles ----------

  predicate OnlyTicksAt(moves: seq<Move>, queueSize: nat) {
    forall n | 0 <= n < |moves| :: moves[n].Tick? && moves[n].queueSize == queueSize
  }

  function SizeAfter(l: Limits, p: Pool, moves: seq<Move>, n: nat): nat
    requires n <= |moves|
  {
    |PoolAfter(l, p, moves, n)|
  }

  /** The size of the pool at the start and after every move. */
  function Sizes(l: Limits, p: Pool, moves: seq<Move>): seq<nat> {
    seq(|moves| + 1, n requires 0 <= n <= |moves| => SizeAfter(l, p, moves, n))
  }

  /** How often neighbouring sizes differ. */
  function Changes(sizes: seq<nat>): nat {
    if |sizes| < 2 then 0
    else Changes(sizes[..|sizes| - 1]) + if sizes[|sizes| - 2] != sizes[|sizes| - 1] then 1 else 0
  }

  /** Every change goes the same way, by one. */
  predicate OneWay(sizes: seq<nat>, direction: int) {
    forall n: nat | n + 1 < |sizes| :: StaysOrMoves(sizes[n], sizes[n + 1], direction)
  }

  predicate StaysOrMoves(from: nat, to: nat, direction: int) {
    to == from || to == from + direction
  }

  /** Which way a constant queue size pushes the pool: up, down, or not at all. */
  function Direction(l: Limits, queueSize: nat): int {
    if queueSize > l.targetQueueSize then 1 else if queueSize < Half(l.targetQueueSize) then -1 else 0
  }

  lemma TickDirection(l: Limits, p: Pool, m: Move)
    requires m.Tick? && CanMove(p, m)
    ensures StaysOrMoves(|p|, |After(l, p, m)|, Direction(l, m.queueSize))
    ensures Direction(l, m.queueSize) == 1 ==> |After(l, p, m)| == if |p| < l.maxWorkers then |p| + 1 else |p|
  {
    SizeWith(p, m.newId, true);
    if m.idle.Some? {
      SizeWithout(p, m.idle.value);
    }
  }

  lemma TicksGoOneWay(l: Limits, p: Pool, moves: seq<Move>, queueSize: nat)
    requires CanMoveAll(l, p, moves) && OnlyTicksAt(moves, queueSize)
    ensures OneWay(Sizes(l, p, moves), Direction(l, queueSize))
  {
    forall n: nat | n < |moves|
      ensures StaysOrMoves(SizeAfter(l, p, moves, n), SizeAfter(l, p, moves, n + 1), Direction(l, queueSize))
    {
      assert CanMoveAt(l, p, moves, n);
      TickDirection(l, PoolAfter(l, p, moves, n), moves[n]);
    }
  }

  function Signed(direction: int, distance: int): int {
    if direction > 0 then distance else -distance
  }

  /** On a one-way walk the number of changes is the distance travelled. */
  lemma {:induction false} ChangesAreDistance(sizes: seq<nat>, direction: int)
    requires sizes != [] && -1 <= direction <= 1 && OneWay(sizes, direction)
    ensures sizes[|sizes| - 1] == sizes[0] + Signed(direction, Changes(sizes))
    ensures direction == 0 ==> Changes(sizes) == 0
  {
    var n := |sizes| - 1;
    if n > 0 {
      forall k: nat | k + 1 < n ensures StaysOrMoves(sizes[..n][k], sizes[..n][k + 1], direction) {
        assert StaysOrMoves(sizes[k], sizes[k + 1], direction);
      }
      ChangesAreDistance(sizes[..n], direction);
      assert StaysOrMoves(sizes[n - 1], sizes[n], direction);
    }
  }

  lemma {:induction false} OneWayIsMonotone(sizes: seq<nat>, direction: int, i: nat, j: nat)
    requires -1 <= direction <= 1 && OneWay(sizes, direction) && i <= j < |sizes|
    ensures direction >= 0 ==> sizes[i] <= sizes[j]
    ensures direction <= 0 ==> sizes[i] >= sizes[j]
    decreases j
  {
    if i < j {
      OneWayIsMonotone(sizes, direction, i, j - 1);
      assert StaysOrMoves(sizes[j - 1], sizes[j], direction);
    }
  }

  /**
   Under a constant queue size and ticks alone the pool moves in one direction only, and
   changes at most maxWorkers - minWorkers times.
   */
  lemma ScalerSettles(l: Limits, p: Pool, moves: seq<Move>, queueSize: nat)
    requires l.minWorkers <= |p| <= l.maxWorkers
    requires CanMoveAll(l, p, moves) && OnlyTicksAt(moves, queueSize)
    ensures Direction(l, queueSize) >= 0 ==>
      forall i, j | 0 <= i <= j <= |moves| :: SizeAfter(l, p, moves, i) <= SizeAfter(l, p, moves, j)
    ensures Direction(l, queueSize) <= 0 ==>
      forall i, j | 0 <= i <= j <= |moves| :: SizeAfter(l, p, moves, i) >= SizeAfter(l, p, moves, j)
    ensures Changes(Sizes(l, p, moves)) <= l.maxWorkers - l.minWorkers
  {
    var sizes, direction := Sizes(l, p, moves), Direction(l, queueSize);
    TicksGoOneWay(l, p, moves, queueSize);
    forall i, j | 0 <= i <= j <= |moves|
      ensures direction >= 0 ==> SizeAfter(l, p, moves, i) <= SizeAfter(l, p, moves, j)
      ensures direction <= 0 ==> SizeAfter(l, p, moves, i) >= SizeAfter(l, p, moves, j)
    {
      OneWayIsMonotone(sizes, direction, i, j);
    }
    ChangesAreDistance(sizes, direction);
    SizeInLimits(l, p, moves, |moves|);
  }

  /** A queue that stays too long costs one new worker per tick until the pool is full. */
  lemma {:induction false} ScalerFillsThePool(l: Limits, p: Pool, moves: seq<Move>, queueSize: nat, n: nat)
    requires |p| <= l.maxWorkers && n <= |moves| && queueSize > l.targetQueueSize
    requires CanMoveAll(l, p, moves) && OnlyTicksAt(moves, queueSize)
    ensures SizeAfter(l, p, moves, n) == if |p| + n <= l.maxWorkers then |p| + n else l.maxWorkers
  {
    if n > 0 {
      ScalerFillsThePool(l, p, moves, queueSize, n - 1);
      assert CanMoveAt(l, p, moves, n - 1);
      TickDirection(l, PoolAfter(l, p, moves, n - 1), moves[n - 1]);
    }
  }

  // ---------- who runs ----------

  predicate AllRun(p: Pool) {
    forall id | id in p :: p[id]
  }

  ghost function Running(p: Pool): set<string> {
    set id | id in p && p[id]
  }

  /** A removal that is accepted and waits. */
  predicate StopsAndKeeps(l: Limits, p: Pool, m: Move) {
    m.Remove? && m.wait && m.id in p && |p| > l.minWorkers
  }

  predicate AllRunAt(l: Limits, p: Pool, moves: seq<Move>, n: nat)
    requires n <= |moves|
  {
    AllRun(PoolAfter(l, p, moves, n))
  }

  predicate StopsAndKeepsAt(l: Limits, p: Pool, moves: seq<Move>, n: nat)
    requires n < |moves|
  {
    StopsAndKeeps(l, PoolAfter(l, p, moves, n), moves[n])
  }

  lemma AllRunStep(l: Limits, p: Pool, m: Move)
    requires AllRun(p)
    ensures AllRun(After(l, p, m)) <==> !StopsAndKeeps(l, p, m)
  {
    if StopsAndKeeps(l, p, m) {
      assert m.id in After(l, p, m) && !After(l, p, m)[m.id];
    }
  }

  lemma {:induction false} AllRunUpTo(l: Limits, p: Pool, moves: seq<Move>, n: nat)
    requires AllRun(p) && n <= |moves| && forall k: nat | k < n :: !StopsAndKeepsAt(l, p, moves, k)
    ensures AllRunAt(l, p, moves, n)
  {
    if n > 0 {
      AllRunUpTo(l, p, moves, n - 1);
      assert !StopsAndKeepsAt(l, p, moves, n - 1);
      AllRunStep(l, PoolAfter(l, p, moves, n - 1), moves[n - 1]);
    }
  }

  lemma {:induction false} StartedRun(ids: seq<string>)
    ensures AllRun(Started(map[], ids))
  {
    if ids != [] {
      StartedRun(ids[..|ids| - 1]);
    }
  }

  /** Every worker of the pool runs at all times if and only if no removal that waits is ever accepted. */
  lemma WorkersRunExactlyWithoutWaiting(l: Limits, ids: seq<string>, moves: seq<Move>)
    ensures var p := Started(map[], ids);
      (forall n: nat | n <= |moves| :: AllRunAt(l, p, moves, n)) <==>
      (forall n: nat | n < |moves| :: !StopsAndKeepsAt(l, p, moves, n))
  {
    var p := Started(map[], ids);
    StartedRun(ids);
    if forall n: nat | n <= |moves| :: AllRunAt(l, p, moves, n) {
      forall n: nat | n < |moves| ensures !StopsAndKeepsAt(l, p, moves, n) {
        assert AllRunAt(l, p, moves, n) && AllRunAt(l, p, moves, n + 1);
        AllRunStep(l, PoolAfter(l, p, moves, n), moves[n]);
      }
    }
    if forall n: nat | n < |moves| :: !StopsAndKeepsAt(l, p, moves, n) {
      forall n: nat | n <= |moves| ensures AllRunAt(l, p, moves, n) {
        AllRunUpTo(l, p, moves, n);
      }
    }
  }

  /** Then the limits bound the workers that run, too. */
  lemma RunningStaysWithinLimits(l: Limits, ids: seq<string>, moves: seq<Move>, n: nat)
    requires l.minWorkers <= l.maxWorkers && |ids| == l.minWorkers
    requires forall i, j | 0 <= i < j < |ids| :: ids[i] != ids[j]
    requires CanMoveAll(l, Started(map[], ids), moves) && n <= |moves|
    requires forall k: nat | k < |moves| :: !StopsAndKeepsAt(l, Started(map[], ids), moves, k)
    ensures l.minWorkers <= |Running(PoolAfter(l, Started(map[], ids), moves, n))| <= l.maxWorkers
  {
    var p := Started(map[], ids);
    PoolStaysWithinLimits(l, ids, moves, n);
    StartedRun(ids);
    AllRunUpTo(l, p, moves, n);
    assert Running(PoolAfter(l, p, moves, n)) == PoolAfter(l, p, moves, n).Keys;
  }

  // ---------- exactly when enough run ----------

  /** The running worker this move stops, if it stops one: by a removal, or by the scaler. */
  function Stopped(l: Limits, p: Pool, m: Move): Option<string> {
    if |p| <= l.minWorkers then None
    else match m
      case Add(_) => None
      case Remove(id, _) => if id in p && p[id] then Some(id) else None
      case Tick(queueSize, _, idle) =>
        if queueSize < Half(l.targetQueueSize) && idle.Some? && idle.value in p && p[idle.value] then idle else None
  }

  ghost predicate EnoughRun(l: Limits, p: Pool) {
    l.minWorkers <= |Running(p)| <= l.maxWorkers
  }

  /** What the code should test before it stops a worker: the number running, not the size of the pool. */
  ghost predicate StopIsSafe(l: Limits, p: Pool, m: Move) {
    Stopped(l, p, m).Some? ==> |Running(p)| > l.minWorkers
  }

  ghost predicate EnoughRunAt(l: Limits, p: Pool, moves: seq<Move>, n: nat)
    requires n <= |moves|
  {
    EnoughRun(l, PoolAfter(l, p, moves, n))
  }

  ghost predicate StopIsSafeAt(l: Limits, p: Pool, moves: seq<Move>, n: nat)
    requires n < |moves|
  {
    StopIsSafe(l, PoolAfter(l, p, moves, n), moves[n])
  }

  /** A move starts one worker, stops one, or leaves those that run as they are. */
  lemma RunningAfter(l: Limits, p: Pool, m: Move)
    requires CanMove(p, m)
    ensures var stopped := Stopped(l, p, m);
      if stopped.Some? then stopped.value in Running(p) && Running(After(l, p, m)) == Running(p) - {stopped.value}
      else Running(After(l, p, m)) >= Running(p)
  {
  }

  lemma RunningIsInThePool(p: Pool)
    ensures |Running(p)| <= |p|
  {
    assert Running(p) <= p.Keys;
    SubsetIsSmaller(Running(p), p.Keys);
  }

  lemma SubsetIsSmaller(a: set<string>, b: set<string>)
    requires a <= b
    ensures |a| <= |b|
  {
    assert b == a + (b - a);
  }

  lemma EnoughRunStep(l: Limits, p: Pool, m: Move)
    requires IsInLimits(l, p) && EnoughRun(l, p) && CanMove(p, m)
    ensures EnoughRun(l, After(l, p, m)) <==> StopIsSafe(l, p, m)
  {
    MoveKeepsSize(l, p, m);
    RunningIsInThePool(After(l, p, m));
    RunningAfter(l, p, m);
    if Stopped(l, p, m).None? {
      SubsetIsSmaller(Running(p), Running(After(l, p, m)));
    }
  }

  lemma EnoughRunNext(l: Limits, p: Pool, moves: seq<Move>, n: nat)
    requires IsInLimits(l, p) && CanMoveAll(l, p, moves) && n < |moves| && EnoughRunAt(l, p, moves, n)
    ensures EnoughRunAt(l, p, moves, n + 1) <==> StopIsSafeAt(l, p, moves, n)
  {
    SizeInLimits(l, p, moves, n);
    assert CanMoveAt(l, p, moves, n);
    EnoughRunStep(l, PoolAfter(l, p, moves, n), moves[n]);
  }

  lemma {:induction false} EnoughRunUpTo(l: Limits, p: Pool, moves: seq<Move>, n: nat)
    requires IsInLimits(l, p) && EnoughRun(l, p) && CanMoveAll(l, p, moves) && n <= |moves|
    requires forall k: nat | k < n :: StopIsSafeAt(l, p, moves, k)
    ensures EnoughRunAt(l, p, moves, n)
  {
    if n > 0 {
      EnoughRunUpTo(l, p, moves, n - 1);
      EnoughRunNext(l, p, moves, n - 1);
    }
  }

  /**
   From any pool within its limits with enough workers running: the limits bound the workers
   that run at all times if and only if every move that stops a running one is made while
   more than the minimum run.
   */
  lemma LimitsBoundRunningExactlyWhenStopsAreSafe(l: Limits, p: Pool, moves: seq<Move>)
    requires IsInLimits(l, p) && EnoughRun(l, p) && CanMoveAll(l, p, moves)
    ensures (forall n: nat | n <= |moves| :: EnoughRunAt(l, p, moves, n)) <==>
            (forall n: nat | n < |moves| :: StopIsSafeAt(l, p, moves, n))
  {
    if forall n: nat | n <= |moves| :: EnoughRunAt(l, p, moves, n) {
      forall n: nat | n < |moves| ensures StopIsSafeAt(l, p, moves, n) {
        assert EnoughRunAt(l, p, moves, n) && EnoughRunAt(l, p, moves, n + 1);
        EnoughRunNext(l, p, moves, n);
      }
    }
    if forall n: nat | n < |moves| :: StopIsSafeAt(l, p, moves, n) {
      forall n: nat | n <= |moves| ensures EnoughRunAt(l, p, moves, n) {
        EnoughRunUpTo(l, p, moves, n);
      }
    }
  }

  function WaitingRemovals(ids: seq<string>): seq<Move> {
    seq(|ids|, i requires 0 <= i < |ids| => Remove(ids[i], true))
  }

  /**
   In any pool above its minimum, removals that wait stop whom they like, all of the workers
   if so asked, and the pool keeps its size.
   */
  lemma {:induction false} StoppedWorkersStillCount(l: Limits, p: Pool, ids: seq<string>, n: nat)
    requires |p| > l.minWorkers && n <= |ids| && forall id | id in ids :: id in p
    ensures var p' := PoolAfter(l, p, WaitingRemovals(ids), n);
      && p'.Keys == p.Keys && |p'| == |p|
      && forall id | id in p :: p'[id] == (p[id] && id !in ids[..n])
  {
    if n > 0 {
      StoppedWorkersStillCount(l, p, ids, n - 1);
      var before := PoolAfter(l, p, WaitingRemovals(ids), n - 1);
      SizeWith(before, ids[n - 1], false);
      assert ids[..n] == ids[..n - 1] + [ids[n - 1]];
      assert PoolAfter(l, p, WaitingRemovals(ids), n) == before[ids[n - 1] := false];
    }
  }

  // ---------- the pool itself ----------

  class Worker {
    const id: string
    var isRunning: bool
    var activeJobs: nat

    constructor (id: string)
      ensures this.id == id && !isRunning && activeJobs == 0
    {
      this.id, isRunning, activeJobs := id, false, 0;
    }

    method Start() returns (ok: bool)
      modifies this`isRunning
      ensures ok == !old(isRunning) && isRunning
    {
      ok := !isRunning;
      isRunning := true;
    }

    method Stop()
      modifies this`isRunning
      ensures !isRunning
    {
      isRunning := false;
    }
  }

  class Workers {
    const limits: Limits
    var workers: map<string, Worker>

    ghost predicate Valid()
      reads this
    {
      forall id | id in workers :: workers[id].id == id
    }

    /** The pool as a value. */
    ghost function View(): Pool
      reads this, workers.Values
    {
      map id | id in workers :: workers[id].isRunning
    }

    constructor (limits: Limits)
      ensures Valid() && this.limits == limits && workers == map[]
    {
      this.limits, workers := limits, map[];
    }

    /** Creates a worker, starts it and puts it into the pool. */
    method Launch(id: string)
      requires Valid() && id !in workers
      modifies this
      ensures Valid() && fresh(workers.Values - old(workers.Values))
      ensures View() == old(View())[id := true]
      ensures workers.Keys == old(workers).Keys + {id}
    {
      var worker := new Worker(id);
      var ok := worker.Start();
      workers := workers[id := worker];
    }

    /** Starts the minimum number of workers, under the given fresh IDs. */
    method Start(ids: seq<string>)
      requires Valid() && workers == map[] && |ids| == limits.minWorkers
      requires forall i, j | 0 <= i < j < |ids| :: ids[i] != ids[j]
      modifies this
      ensures Valid() && View() == Started(map[], ids)
    {
      for i := 0 to limits.minWorkers
        invariant Valid() && View() == Started(map[], ids[..i])
        invariant workers.Keys == set id | id in ids[..i]
      {
        assert ids[..i + 1][..i] == ids[..i] && ids[..i + 1] == ids[..i] + [ids[i]];
        Launch(ids[i]);
      }
      assert ids[..|ids|] == ids;
    }

    method AddWorker(newId: string) returns (ok: bool)
      requires Valid() && newId !in workers
      modifies this
      ensures Valid() && fresh(workers.Values - old(workers.Values))
      ensures ok == (|old(View())| < limits.maxWorkers) && View() == Added(limits, old(View()), newId)
    {
      SameSize();
      if |workers| >= limits.maxWorkers {
        return false;
      }
      Launch(newId);
      ok := true;
    }

    lemma SameSize()
      ensures |View()| == |workers|
    {
      assert View().Keys == workers.Keys;
    }

    method RemoveWorker(id: string, wait: bool) returns (ok: bool)
      requires Valid()
      modifies this, workers.Values
      ensures Valid() && workers.Values <= old(workers.Values)
      ensures ok == (id in old(View()) && |old(View())| > limits.minWorkers)
      ensures View() == Removed(limits, old(View()), id, wait)
      ensures ok ==> !old(workers)[id].isRunning
    {
      SameSize();
      if id !in workers || |workers| <= limits.minWorkers {
        return false;
      }
      workers[id].Stop();
      if !wait {
        workers := workers - {id};
      }
      ok := true;
    }

    /** Some worker without active jobs, if there is one. */
    method FindIdle() returns (idle: Option<string>)
      ensures idle.Some? ==> idle.value in workers && workers[idle.value].activeJobs == 0
      ensures idle.None? ==> forall id | id in workers :: workers[id].activeJobs > 0
    {
      var rest := workers.Keys;
      while rest != {}
        invariant rest <= workers.Keys
        invariant forall id | id in workers && id !in rest :: workers[id].activeJobs > 0
        decreases rest
      {
        var id :| id in rest;
        if workers[id].activeJobs == 0 {
          return Some(id);
        }
        rest := rest - {id};
      }
      idle := None;
    }

    /** One tick of the auto-scaler. */
    method ScalerTick(queueSize: nat, newId: string) returns (ghost idle: Option<string>)
      requires Valid() && newId !in workers
      modifies this, workers.Values
      ensures Valid()
      ensures idle.Some? ==>
        && idle.value in old(workers)
        && old(workers[idle.value].activeJobs) == 0 && !old(workers)[idle.value].isRunning
      ensures idle.None? && queueSize < Half(limits.targetQueueSize) && |old(workers)| > limits.minWorkers ==>
        forall id | id in old(workers) :: old(workers[id].activeJobs) > 0
      ensures View() == Scaled(limits, old(View()), queueSize, newId, idle)
    {
      SameSize();
      var currentWorkers := |workers|;
      idle := None;
      if queueSize > limits.targetQueueSize && currentWorkers < limits.maxWorkers {
        Launch(newId);
      }
      if queueSize < Half(limits.targetQueueSize) && currentWorkers > limits.minWorkers {
        var workerToRemove := FindIdle();
        if workerToRemove.Some? {
          idle := workerToRemove;
          workers[workerToRemove.value].Stop();
          workers := workers - {workerToRemove.value};
        }
      }
    }

    /** Stops every worker; without waiting, the pool is emptied too. */
    method Stop(wait: bool)
      requires Valid()
      modifies this, workers.Values
      ensures Valid() && View() == if wait then map id | id in old(View()) :: false else map[]
    {
      var rest := workers.Keys;
      while rest != {}
        invariant workers == old(workers) && Valid() && rest <= workers.Keys
        invariant forall id | id in workers && id !in rest :: !workers[id].isRunning
        decreases rest
      {
        var id :| id in rest;
        workers[id].Stop();
        rest := rest - {id};
      }
      if !wait {
        workers := map[];
      }
    }
  }
}
