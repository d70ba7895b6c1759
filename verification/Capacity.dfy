/**
 Capacity is checked, then acted on, without a lock: how far racing Enqueue calls can
 overshoot it (internal/processor/queue.go, Enqueue).
 */
module Capacity {
  import opened Models
  import opened Store
  import opened Lifecycle
  import opened Protocol
  import opened Refinement
  import opened Runs

  predicate IsPast(pc: Pc) {
    pc.EnqStamp? || pc.EnqUpdate?
  }

  /** Threads that have passed the capacity check and not yet written their ad as queued. */
  ghost function PastCheck(pcs: map<Tid, Pc>): set<Tid> {
    set t | t in pcs && IsPast(pcs[t])
  }

  function Requeues(log: Log): nat {
    if log == [] then 0
    else Requeues(log[..|log| - 1]) + if log[|log| - 1].Requeued? then 1 else 0
  }

  ghost predicate RacersAt(r: Trace, j: nat, k: nat)
    requires j < |r.states|
  {
    |PastCheck(r.states[j].pcs)| <= k
  }

  /** Never more than k Enqueue calls past the check at once. */
  ghost predicate RacersAtMost(r: Trace, k: nat) {
    forall j: nat | j < |r.states| :: RacersAt(r, j, k)
  }

  ghost predicate CapacityInv(cfg: Config, s: State, k: nat) {
    |IdsWith(s.store, Queued)| + |PastCheck(s.pcs)| <= cfg.maxCapacity - 1 + k + Requeues(s.log)
  }

  /** A thread passes the check only below capacity, and leaves that point by entering the queue or giving up. */
  ghost predicate EnqueueOrigin(cfg: Config, st: Ads, pc: Pc, e: Effect) {
    && (IsPast(e.pc) ==> e.events == [] && (IsPast(pc) || |IdsWith(st, Queued)| < cfg.maxCapacity))
    && (e.events != [] && e.events[0].Enqueued? ==> pc.EnqUpdate?)
  }

  lemma ExecEnqueueOrigin(cfg: Config, st: Ads, clock: int, who: Tid, pc: Pc, flag: bool)
    requires cfg.Valid() && IsRunnable(pc) && cfg.maxCapacity > 0 && (pc.Pushing? ==> !IsPast(pc.next))
    ensures EnqueueOrigin(cfg, st, pc, Exec(cfg, st, clock, who, pc, flag))
  {
  }

  lemma EffectEnqueueOrigin(cfg: Config, s: State, l: Label)
    requires cfg.Valid() && Inv(s) && Allowed(s, l) && !l.Tick? && cfg.maxCapacity > 0
    ensures EnqueueOrigin(cfg, s.store, PcOf(s, l.who), EffectOf(cfg, s, l))
  {
    var pc := PcOf(s, l.who);
    if l.Run? {
      assert PcOk(s.store, s.clock, pc);
      ExecEnqueueOrigin(cfg, s.store, s.clock, l.who, pc, l.flag);
    }
  }

  lemma QueuedAfter(st: Ads, e: Event)
    requires Enabled(st, e)
    ensures IdsWith(Apply(st, e), Queued) ==
            if e.Enqueued? || e.Requeued? then IdsWith(st, Queued) + {e.id}
            else if e.Claimed? then IdsWith(st, Queued) - {e.id}
            else IdsWith(st, Queued)
  {
  }

  lemma PastCheckAfter(pcs: map<Tid, Pc>, who: Tid, pc: Pc)
    ensures PastCheck(pcs[who := pc]) == PastCheck(pcs) - {who} + if IsPast(pc) then {who} else {}
  {
  }

  lemma RequeuesExtend(log: Log, e: Event)
    ensures Requeues(log + [e]) == Requeues(log) + if e.Requeued? then 1 else 0
  {
    assert (log + [e])[..|log|] == log;
  }

  /** Entering the queue uses up one passed check; only a requeue adds to the sum otherwise. */
  lemma LoadOfEffect(cfg: Config, st: Ads, pcs: map<Tid, Pc>, who: Tid, pc: Pc, e: Effect)
    requires pc == if who in pcs then pcs[who] else Idle
    requires EnqueueOrigin(cfg, st, pc, e) && |e.events| <= 1
    requires e.events == [] ==> e.store == st
    requires e.events != [] ==> Enabled(st, e.events[0]) && e.store == Apply(st, e.events[0])
    ensures var grown := if e.events != [] && e.events[0].Requeued? then 1 else 0;
      var load := |IdsWith(e.store, Queued)| + |PastCheck(pcs[who := e.pc])|;
      || load <= |IdsWith(st, Queued)| + |PastCheck(pcs)| + grown
      || |IdsWith(e.store, Queued)| <= cfg.maxCapacity - 1
  {
    PastCheckAfter(pcs, who, e.pc);
    assert who in PastCheck(pcs) <==> IsPast(pc);
    if e.events != [] {
      QueuedAfter(st, e.events[0]);
    }
  }

  lemma EffectKeepsCapacity(cfg: Config, s: State, who: Tid, e: Effect, k: nat)
    requires CapacityInv(cfg, s, k) && Sound(s.store, s.clock, PcOf(s, who), e)
    requires EnqueueOrigin(cfg, s.store, PcOf(s, who), e) && |PastCheck(s.pcs[who := e.pc])| <= k
    ensures CapacityInv(cfg, After(s, who, e), k)
  {
    LoadOfEffect(cfg, s.store, s.pcs, who, PcOf(s, who), e);
    if e.events == [] {
      assert s.log + e.events == s.log;
    } else {
      assert e.events == [e.events[0]];
      RequeuesExtend(s.log, e.events[0]);
    }
  }

  lemma CapacityInvStep(cfg: Config, s: State, l: Label, s': State, k: nat)
    requires Inv(s) && CapacityInv(cfg, s, k) && Step(cfg, s, l, s')
    requires cfg.maxCapacity > 0 && |PastCheck(s'.pcs)| <= k
    ensures CapacityInv(cfg, s', k)
  {
    if !l.Tick? {
      var e := StepEffect(cfg, s, l, s');
      EffectEnqueueOrigin(cfg, s, l);
      EffectKeepsCapacity(cfg, s, l.who, e, k);
    }
  }

  lemma CapacityInvAtStart(cfg: Config, s: State, k: nat)
    requires Init(s) && cfg.maxCapacity > 0
    ensures CapacityInv(cfg, s, k)
  {
    assert IdsWith(s.store, Queued) == {} && PastCheck(s.pcs) == {};
  }

  lemma {:induction false} RunKeepsCapacityInv(cfg: Config, r: Trace, k: nat, i: nat)
    requires IsRun(cfg, r) && i < |r.states| && cfg.maxCapacity > 0
    requires RacersAtMost(r, k)
    ensures CapacityInv(cfg, r.states[i], k)
  {
    if i == 0 {
      CapacityInvAtStart(cfg, r.states[0], k);
    } else {
      RunKeepsCapacityInv(cfg, r, k, i - 1);
      RunKeepsInv(cfg, r, i - 1);
      assert StepAt(cfg, r, i - 1) && RacersAt(r, i, k);
      CapacityInvStep(cfg, r.states[i - 1], r.labels[i - 1], r.states[i], k);
    }
  }

  /**
   With at most k Enqueue calls past the check at a time, the queue holds at most
   maxCapacity - 1 + k ads, plus one for each requeue, which is not checked at all.
   */
  lemma QueueOvershoot(cfg: Config, r: Trace, k: nat, i: nat)
    requires IsRun(cfg, r) && i < |r.states| && cfg.maxCapacity > 0
    requires RacersAtMost(r, k)
    ensures |IdsWith(r.states[i].store, Queued)| <= cfg.maxCapacity - 1 + k + Requeues(r.states[i].log)
  {
    RunKeepsCapacityInv(cfg, r, k, i);
  }

  /** Enqueue calls that do not race, and no requeue: capacity holds. */
  lemma SequentialCapacity(cfg: Config, r: Trace, i: nat)
    requires IsRun(cfg, r) && i < |r.states| && cfg.maxCapacity > 0 && Requeues(r.states[i].log) == 0
    requires RacersAtMost(r, 1)
    ensures |IdsWith(r.states[i].store, Queued)| <= cfg.maxCapacity
  {
    QueueOvershoot(cfg, r, 1, i);
  }
}
