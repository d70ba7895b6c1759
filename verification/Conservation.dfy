/**
 Conservation across layers: the workers' `processed` counters account for every stored
 analysis, exactly once (internal/processor/worker.go, processLoop).
 */
module Conservation {
  import opened Models
  import opened Store
  import opened Lifecycle
  import opened Protocol
  import opened Refinement
  import opened Runs

  ghost function AnalysedIds(st: Ads): set<string> {
    set id | id in st && st[id].analysis.Some?
  }

  /** Threads whose Complete has stored its analysis but which have not counted it yet. */
  ghost function DoneThreads(pcs: map<Tid, Pc>): set<Tid> {
    set t | t in pcs && pcs[t].CmDone?
  }

  /** The counters as the log tells them. */
  function CountsOf(log: Log): multiset<WorkerKey> {
    if log == [] then multiset{}
    else
      var last := log[|log| - 1];
      CountsOf(log[..|log| - 1]) +
      if last.Counted? then multiset{(last.who.instanceId, last.who.worker)} else multiset{}
  }

  /** A counted ad is analysed, and no thread is about to count it. */
  ghost predicate CountedForGood(s: State, id: string) {
    && id in s.store && s.store[id].analysis.Some?
    && forall t | t in s.pcs :: Completing(s.pcs[t]) != Some(id)
  }

  ghost predicate CountedOnce(log: Log) {
    forall i, j | 0 <= i < j < |log| && log[i].Counted? && log[j].Counted? :: log[i].id != log[j].id
  }

  ghost predicate CountInv(s: State) {
    && Inv(s)
    && |s.processed| + |DoneThreads(s.pcs)| == |AnalysedIds(s.store)|
    && s.processed == CountsOf(s.log)
    && CountedOnce(s.log)
    && (forall i | 0 <= i < |s.log| && s.log[i].Counted? :: CountedForGood(s, s.log[i].id))
  }

  /** A thread is done exactly between storing an analysis and counting it. */
  ghost predicate DoneOrigin(who: Tid, pc: Pc, e: Effect) {
    && (pc.CmDone? <==> e.events != [] && e.events[0].Counted?)
    && (pc.CmDone? ==> e.events == [Counted(who, pc.id)] && e.pc.Idle?)
    && (e.pc.CmDone? <==> e.events != [] && e.events[0].Analysed?)
    && (e.pc.CmDone? ==> e.events[0].id == e.pc.id)
  }

  lemma ExecDoneOrigin(cfg: Config, st: Ads, clock: int, who: Tid, pc: Pc, flag: bool)
    requires cfg.Valid() && IsRunnable(pc) && (pc.Pushing? ==> !pc.next.CmDone?)
    ensures DoneOrigin(who, pc, Exec(cfg, st, clock, who, pc, flag))
  {
  }

  lemma EffectDoneOrigin(cfg: Config, s: State, l: Label)
    requires cfg.Valid() && Inv(s) && Allowed(s, l) && !l.Tick?
    ensures DoneOrigin(l.who, PcOf(s, l.who), EffectOf(cfg, s, l))
  {
    var pc := PcOf(s, l.who);
    if l.Run? {
      assert PcOk(s.store, s.clock, pc);
      ExecDoneOrigin(cfg, s.store, s.clock, l.who, pc, l.flag);
    }
  }

  lemma AnalysedAfter(st: Ads, e: Event)
    requires Enabled(st, e)
    ensures AnalysedIds(Apply(st, e)) == if e.Analysed? then AnalysedIds(st) + {e.id} else AnalysedIds(st)
    ensures e.Analysed? ==> e.id !in AnalysedIds(st)
  {
  }

  lemma DoneAfter(pcs: map<Tid, Pc>, who: Tid, pc: Pc)
    ensures DoneThreads(pcs[who := pc]) == DoneThreads(pcs) - {who} + if pc.CmDone? then {who} else {}
  {
  }

  ghost function Balance(processed: multiset<WorkerKey>, pcs: map<Tid, Pc>, st: Ads): int {
    |processed| + |DoneThreads(pcs)| - |AnalysedIds(st)|
  }

  function CountedTo(processed: multiset<WorkerKey>, who: Tid, pc: Pc): multiset<WorkerKey> {
    if pc.CmDone? then processed + multiset{(who.instanceId, who.worker)} else processed
  }

  lemma DoneCount(pcs: map<Tid, Pc>, who: Tid, pc: Pc, pc': Pc)
    requires pc == if who in pcs then pcs[who] else Idle
    ensures |DoneThreads(pcs[who := pc'])| ==
      |DoneThreads(pcs)| + (if pc'.CmDone? then 1 else 0) - (if pc.CmDone? then 1 else 0)
  {
    DoneAfter(pcs, who, pc');
    assert who in DoneThreads(pcs) <==> pc.CmDone?;
  }

  lemma AnalysedCount(st: Ads, e: Event)
    requires Enabled(st, e)
    ensures |AnalysedIds(Apply(st, e))| == |AnalysedIds(st)| + if e.Analysed? then 1 else 0
  {
    AnalysedAfter(st, e);
  }

  /** Storing an analysis makes one thread done; counting it makes the thread idle again. */
  lemma BalanceOfEffect(processed: multiset<WorkerKey>, pcs: map<Tid, Pc>, st: Ads, who: Tid, pc: Pc, e: Effect)
    requires pc == if who in pcs then pcs[who] else Idle
    requires DoneOrigin(who, pc, e) && |e.events| <= 1
    requires e.events == [] ==> e.store == st
    requires e.events != [] ==> Enabled(st, e.events[0]) && e.store == Apply(st, e.events[0])
    ensures Balance(CountedTo(processed, who, pc), pcs[who := e.pc], e.store) == Balance(processed, pcs, st)
  {
    DoneCount(pcs, who, pc, e.pc);
    if e.events != [] {
      AnalysedCount(st, e.events[0]);
    }
  }

  lemma CountsExtend(log: Log, e: Event)
    ensures CountsOf(log + [e]) ==
            CountsOf(log) + if e.Counted? then multiset{(e.who.instanceId, e.who.worker)} else multiset{}
  {
    assert (log + [e])[..|log|] == log;
  }

  lemma BalanceStays(s: State, who: Tid, e: Effect)
    requires CountInv(s) && Sound(s.store, s.clock, PcOf(s, who), e) && DoneOrigin(who, PcOf(s, who), e)
    ensures var s' := After(s, who, e);
      |s'.processed| + |DoneThreads(s'.pcs)| == |AnalysedIds(s'.store)| && s'.processed == CountsOf(s'.log)
  {
    BalanceOfEffect(s.processed, s.pcs, s.store, who, PcOf(s, who), e);
    if e.events != [] {
      assert e.events == [e.events[0]];
      CountsExtend(s.log, e.events[0]);
    } else {
      assert s.log + e.events == s.log;
    }
  }

  /** Once counted, an ad is never completed again, so it is never counted again. */
  lemma CountedStays(s: State, who: Tid, e: Effect, id: string)
    requires CountInv(s) && StoreOk(s.store, s.clock) && Sound(s.store, s.clock, PcOf(s, who), e)
    requires CountedForGood(s, id)
    ensures CountedForGood(After(s, who, e), id)
  {
    SoundRefines(s, who, e);
    assert AdEvolves(s.store[id], e.store[id]);
    assert Completing(PcOf(s, who)) != Some(id);
  }

  lemma NewlyCounted(s: State, who: Tid, e: Effect)
    requires CountInv(s) && Sound(s.store, s.clock, PcOf(s, who), e) && DoneOrigin(who, PcOf(s, who), e)
    requires PcOf(s, who).CmDone?
    ensures CountedForGood(After(s, who, e), PcOf(s, who).id)
    ensures forall i | 0 <= i < |s.log| && s.log[i].Counted? :: s.log[i].id != PcOf(s, who).id
  {
    var id := PcOf(s, who).id;
    assert PcOk(s.store, s.clock, s.pcs[who]);
    forall t | t in s.pcs && t != who ensures Completing(s.pcs[t]) != Some(id) {
      assert Completing(s.pcs[who]) != Completing(s.pcs[t]);
    }
    forall i | 0 <= i < |s.log| && s.log[i].Counted? ensures s.log[i].id != id {
      assert CountedForGood(s, s.log[i].id);
      assert Completing(s.pcs[who]) != Some(s.log[i].id);
    }
  }

  lemma CountedOnceExtends(log: Log, events: seq<Event>)
    requires CountedOnce(log) && |events| <= 1
    requires events != [] && events[0].Counted? ==>
      forall i | 0 <= i < |log| && log[i].Counted? :: log[i].id != events[0].id
    ensures CountedOnce(log + events)
  {
  }

  lemma NoneCountedTwice(s: State, who: Tid, e: Effect)
    requires CountInv(s) && Sound(s.store, s.clock, PcOf(s, who), e) && DoneOrigin(who, PcOf(s, who), e)
    ensures CountedOnce(After(s, who, e).log)
  {
    if PcOf(s, who).CmDone? {
      NewlyCounted(s, who, e);
    }
    CountedOnceExtends(s.log, e.events);
  }

  lemma CountedStayForGood(s: State, who: Tid, e: Effect, i: nat)
    requires CountInv(s) && StoreOk(s.store, s.clock) && Sound(s.store, s.clock, PcOf(s, who), e)
    requires DoneOrigin(who, PcOf(s, who), e)
    requires i < |After(s, who, e).log| && After(s, who, e).log[i].Counted?
    ensures CountedForGood(After(s, who, e), After(s, who, e).log[i].id)
  {
    if i < |s.log| {
      CountedStays(s, who, e, s.log[i].id);
    } else {
      NewlyCounted(s, who, e);
    }
  }

  lemma EffectKeepsCounts(s: State, who: Tid, e: Effect)
    requires CountInv(s) && StoreOk(s.store, s.clock) && Sound(s.store, s.clock, PcOf(s, who), e)
    requires DoneOrigin(who, PcOf(s, who), e)
    ensures CountInv(After(s, who, e))
  {
    EffectKeepsInv(s, who, e);
    BalanceStays(s, who, e);
    NoneCountedTwice(s, who, e);
    var s' := After(s, who, e);
    forall i: nat | i < |s'.log| && s'.log[i].Counted? ensures CountedForGood(s', s'.log[i].id) {
      CountedStayForGood(s, who, e, i);
    }
  }

  lemma CountInvStep(cfg: Config, s: State, l: Label, s': State)
    requires CountInv(s) && Step(cfg, s, l, s')
    ensures CountInv(s')
  {
    if l.Tick? {
      TickKeepsInv(s, l.now);
    } else {
      var e := StepEffect(cfg, s, l, s');
      EffectDoneOrigin(cfg, s, l);
      EffectKeepsCounts(s, l.who, e);
    }
  }

  lemma {:induction false} RunKeepsCountInv(cfg: Config, r: Trace, i: nat)
    requires IsRun(cfg, r) && i < |r.states|
    ensures CountInv(r.states[i])
  {
    if i == 0 {
      assert DoneThreads(r.states[0].pcs) == {} && AnalysedIds(r.states[0].store) == {};
    } else {
      RunKeepsCountInv(cfg, r, i - 1);
      assert StepAt(cfg, r, i - 1);
      CountInvStep(cfg, r.states[i - 1], r.labels[i - 1], r.states[i]);
    }
  }

  /**
   In every reachable state the processed counters of all workers ever started, plus the
   completions stored but not yet counted, add up to the ads with an analysis; each
   counter is the number of ads its worker counted, and no ad was counted twice.
   */
  lemma ProcessedAccountsForEveryAnalysis(cfg: Config, r: Trace, i: nat)
    requires IsRun(cfg, r) && i < |r.states|
    ensures var s := r.states[i];
      && |s.processed| + |DoneThreads(s.pcs)| == |AnalysedIds(s.store)|
      && s.processed == CountsOf(s.log)
      && CountedOnce(s.log)
  {
    RunKeepsCountInv(cfg, r, i);
  }
}
