/**
 Where the contents of a stored ad come from, in every run: its times are instants at which
 the clock was read, its analysis is what its finishing thread's analyser returned.
 */
module Provenance {
  import opened Models
  import opened Store
  import opened Lifecycle
  import opened Protocol
  import opened Refinement
  import opened Runs
  import opened Fencing
  import opened Commit

  // ---------- from the record to the event that wrote it ----------

  ghost predicate QueuedBy(log: Log, k: nat, ad: Record) {
    k < |log| && log[k].Enqueued? && log[k].id == ad.adId && ad.queuedAt == Some(log[k].at)
  }

  ghost predicate FinishedBy(log: Log, k: nat, ad: Record) {
    k < |log| && log[k].Finished? && log[k].id == ad.adId && ad.completedAt == Some(log[k].at)
  }

  ghost predicate AnalysedBy(log: Log, k: nat, ad: Record) {
    k < |log| && log[k].Analysed? && log[k].id == ad.adId && ad.analysis == Some(log[k].analysis)
  }

  ghost predicate SubmittedBy(log: Log, k: nat, ad: Record) {
    k < |log| && log[k].Saved? && log[k].ad.adId == ad.adId
    && log[k].ad.submission == ad.submission && log[k].ad.createdAt == ad.createdAt
  }

  ghost predicate Accounted(log: Log, ad: Record) {
    && (exists k: nat :: SubmittedBy(log, k, ad))
    && (ad.queuedAt.Some? ==> exists k: nat :: QueuedBy(log, k, ad))
    && (ad.completedAt.Some? ==> exists k: nat :: FinishedBy(log, k, ad))
    && (ad.analysis.Some? ==> exists k: nat :: AnalysedBy(log, k, ad))
  }

  lemma AccountedOnLongerLog(log: Log, e: Event, ad: Record)
    requires Accounted(log, ad)
    ensures Accounted(log + [e], ad)
  {
    var k: nat :| SubmittedBy(log, k, ad);
    assert SubmittedBy(log + [e], k, ad);
    if ad.queuedAt.Some? {
      var i: nat :| QueuedBy(log, i, ad);
      assert QueuedBy(log + [e], i, ad);
    }
    if ad.completedAt.Some? {
      var i: nat :| FinishedBy(log, i, ad);
      assert FinishedBy(log + [e], i, ad);
    }
    if ad.analysis.Some? {
      var i: nat :| AnalysedBy(log, i, ad);
      assert AnalysedBy(log + [e], i, ad);
    }
  }

  /** The event itself accounts for what it writes; the rest of the record was accounted for before. */
  lemma AccountedAfter(log: Log, ad: Record, e: Event)
    requires !e.Saved? && e.id == ad.adId && Accounted(log, ad)
    ensures Accounted(log + [e], Changed(ad, e))
  {
    AccountedOnLongerLog(log, e, ad);
    var all, ad' := log + [e], Changed(ad, e);
    var k: nat :| SubmittedBy(all, k, ad);
    assert SubmittedBy(all, k, ad');
    if ad'.queuedAt.Some? {
      if e.Enqueued? {
        assert QueuedBy(all, |log|, ad');
      } else {
        var i: nat :| QueuedBy(all, i, ad);
        assert QueuedBy(all, i, ad');
      }
    }
    if ad'.completedAt.Some? {
      if e.Finished? {
        assert FinishedBy(all, |log|, ad');
      } else {
        var i: nat :| FinishedBy(all, i, ad);
        assert FinishedBy(all, i, ad');
      }
    }
    if ad'.analysis.Some? {
      if e.Analysed? {
        assert AnalysedBy(all, |log|, ad');
      } else {
        var i: nat :| AnalysedBy(all, i, ad);
        assert AnalysedBy(all, i, ad');
      }
    }
  }

  /** After every legal log, each stored ad's submission, times and analysis are those of events of that ad. */
  lemma {:induction false} LegalStoreIsAccounted(log: Log, id: string)
    requires Legal(log) && id in Replay(log)
    ensures Accounted(log, Replay(log)[id])
    decreases |log|
  {
    var n := |log| - 1;
    var before, e := log[..n], log[n];
    assert log == before + [e];
    LegalStoreIsConsistent(before);
    if e.Saved? && e.ad.adId == id {
      assert SubmittedBy(log, n, e.ad);
    } else {
      LegalStoreIsAccounted(before, id);
      if !e.Saved? && e.id == id {
        AccountedAfter(before, Replay(before)[id], e);
      } else {
        AccountedOnLongerLog(before, e, Replay(before)[id]);
      }
    }
  }

  // ---------- times ----------

  /** The clock showed this instant at some state up to the n-th. */
  ghost predicate WasNow(r: Trace, n: nat, at: int) {
    exists m: nat :: ShowsAt(r, m, n, at)
  }

  ghost predicate ShowsAt(r: Trace, m: nat, n: nat, at: int) {
    m <= n && m < |r.states| && r.states[m].clock == at
  }

  lemma StillWasNow(r: Trace, n: nat, at: int)
    requires WasNow(r, n, at)
    ensures WasNow(r, n + 1, at)
  {
    var m: nat :| ShowsAt(r, m, n, at);
    assert ShowsAt(r, m, n + 1, at);
  }

  ghost predicate TimeOfEvent(r: Trace, n: nat, e: Event) {
    e.Enqueued? || e.Finished? ==> WasNow(r, n, e.at)
  }

  ghost predicate TimeHeld(r: Trace, n: nat, pc: Pc) {
    pc.EnqUpdate? ==> WasNow(r, n, pc.at)
  }

  ghost predicate TimesRead(r: Trace, n: nat)
    requires n < |r.states|
  {
    && (forall e | e in r.states[n].log :: TimeOfEvent(r, n, e))
    && (forall t | t in r.states[n].pcs :: TimeHeld(r, n, r.states[n].pcs[t]))
  }

  /** A thread takes the time from the clock as it stands, or writes the one it holds. */
  ghost predicate TimeOrigin(s: State, pc: Pc, e: Effect) {
    && (e.pc.EnqUpdate? ==> e.pc.at == s.clock)
    && (e.events != [] && e.events[0].Enqueued? ==> pc.EnqUpdate? && e.events[0].at == pc.at)
    && (e.events != [] && e.events[0].Finished? ==> e.events[0].at == s.clock)
  }

  lemma ExecTimes(cfg: Config, s: State, who: Tid, pc: Pc, flag: bool)
    requires cfg.Valid() && IsRunnable(pc) && (pc.Pushing? ==> !pc.next.EnqUpdate?)
    ensures TimeOrigin(s, pc, Exec(cfg, s.store, s.clock, who, pc, flag))
  {
  }

  lemma StepTimes(cfg: Config, s: State, l: Label)
    requires cfg.Valid() && Inv(s) && Allowed(s, l) && !l.Tick?
    ensures TimeOrigin(s, PcOf(s, l.who), EffectOf(cfg, s, l))
  {
    if l.Run? {
      assert PcOk(s.store, s.clock, PcOf(s, l.who));
      ExecTimes(cfg, s, l.who, PcOf(s, l.who), l.flag);
    }
  }

  lemma TimesAfter(r: Trace, n: nat, s: State, who: Tid, e: Effect)
    requires n + 1 < |r.states| && s == r.states[n] && r.states[n + 1] == After(s, who, e)
    requires TimesRead(r, n) && TimeOrigin(s, PcOf(s, who), e) && |e.events| <= 1
    ensures TimesRead(r, n + 1)
  {
    assert ShowsAt(r, n, n, s.clock);
    assert WasNow(r, n, s.clock);
    StillWasNow(r, n, s.clock);
    var s' := r.states[n + 1];
    forall event | event in s'.log ensures TimeOfEvent(r, n + 1, event) {
      if event in s.log {
        assert TimeOfEvent(r, n, event);
        if event.Enqueued? || event.Finished? {
          StillWasNow(r, n, event.at);
        }
      } else if event.Enqueued? {
        assert event == e.events[0] && TimeHeld(r, n, s.pcs[who]);
        StillWasNow(r, n, event.at);
      }
    }
    forall t | t in s'.pcs ensures TimeHeld(r, n + 1, s'.pcs[t]) {
      if t != who && s'.pcs[t].EnqUpdate? {
        assert TimeHeld(r, n, s.pcs[t]);
        StillWasNow(r, n, s.pcs[t].at);
      }
    }
  }

  lemma TimesAfterTick(r: Trace, n: nat)
    requires n + 1 < |r.states| && TimesRead(r, n)
    requires r.states[n + 1].log == r.states[n].log && r.states[n + 1].pcs == r.states[n].pcs
    ensures TimesRead(r, n + 1)
  {
    forall event | event in r.states[n].log ensures TimeOfEvent(r, n + 1, event) {
      assert TimeOfEvent(r, n, event);
      if event.Enqueued? || event.Finished? {
        StillWasNow(r, n, event.at);
      }
    }
    forall t | t in r.states[n].pcs ensures TimeHeld(r, n + 1, r.states[n].pcs[t]) {
      assert TimeHeld(r, n, r.states[n].pcs[t]);
      if r.states[n].pcs[t].EnqUpdate? {
        StillWasNow(r, n, r.states[n].pcs[t].at);
      }
    }
  }

  lemma {:induction false} TimesAreRead(cfg: Config, r: Trace, n: nat)
    requires IsRun(cfg, r) && n < |r.states|
    ensures TimesRead(r, n)
  {
    if n > 0 {
      var s, l, s' := r.states[n - 1], r.labels[n - 1], r.states[n];
      TimesAreRead(cfg, r, n - 1);
      StepOfRun(cfg, r, n - 1);
      if l.Tick? {
        TimesAfterTick(r, n - 1);
      } else {
        var e := StepEffect(cfg, s, l, s');
        StepTimes(cfg, s, l);
        TimesAfter(r, n - 1, s, l.who, e);
      }
    }
  }

  /** In every reachable state an ad's queue time and completion time are instants the clock has shown. */
  lemma StoredTimesAreRead(cfg: Config, r: Trace, n: nat, id: string)
    requires IsRun(cfg, r) && n < |r.states| && id in r.states[n].store
    ensures var ad := r.states[n].store[id];
      && (ad.queuedAt.Some? ==> WasNow(r, n, ad.queuedAt.value))
      && (ad.completedAt.Some? ==> WasNow(r, n, ad.completedAt.value))
  {
    var s := r.states[n];
    RunKeepsInv(cfg, r, n);
    LegalStoreIsAccounted(s.log, id);
    TimesAreRead(cfg, r, n);
    var ad := s.store[id];
    if ad.queuedAt.Some? {
      var k: nat :| QueuedBy(s.log, k, ad);
      assert TimeOfEvent(r, n, s.log[k]);
    }
    if ad.completedAt.Some? {
      var k: nat :| FinishedBy(s.log, k, ad);
      assert TimeOfEvent(r, n, s.log[k]);
    }
  }

  // ---------- analyses ----------

  /** The i-th step: this thread's analyser returned this for the delivered ad it was working on. */
  ghost predicate AnalysedAt(r: Trace, i: nat, who: Tid, id: string, analysis: AdAnalysis) {
    && i < |r.labels| && i < |r.states| && r.labels[i] == Analyse(who, Some(analysis))
    && PcOf(r.states[i], who).Working? && PcOf(r.states[i], who).ad.adId == id
  }

  ghost predicate WasAnalysed(r: Trace, n: nat, who: Tid, id: string, analysis: AdAnalysis) {
    exists i: nat :: i < n && AnalysedAt(r, i, who, id, analysis)
  }

  /** The ad and the analysis a completing thread holds. */
  function Held(pc: Pc): Option<(string, AdAnalysis)> {
    match pc
    case CmLock(ad, analysis) => Some((ad.adId, analysis))
    case CmCas(ad, analysis) => Some((ad.adId, analysis))
    case CmRead(wrote, analysis) => Some((wrote.adId, analysis))
    case CmWrite(wrote, _, analysis) => Some((wrote.adId, analysis))
    case _ => None
  }

  ghost predicate HeldIsAnalysed(r: Trace, n: nat, t: Tid, pc: Pc) {
    Held(pc).Some? ==> WasAnalysed(r, n, t, Held(pc).value.0, Held(pc).value.1)
  }

  ghost predicate EventIsAnalysed(r: Trace, n: nat, e: Event) {
    e.Analysed? ==> WasAnalysed(r, n, e.who, e.id, e.analysis)
  }

  ghost predicate AnalysesKnown(r: Trace, n: nat)
    requires n < |r.states|
  {
    && (forall e | e in r.states[n].log :: EventIsAnalysed(r, n, e))
    && (forall t | t in r.states[n].pcs :: HeldIsAnalysed(r, n, t, r.states[n].pcs[t]))
  }

  /** A thread comes to hold an analysis from its analyser only, keeps it, and writes it to that ad. */
  ghost predicate AnalysisOrigin(l: Label, pc: Pc, e: Effect) {
    && !l.Tick?
    && (Held(e.pc).Some? && Held(e.pc) != Held(pc) ==>
          && pc.Working? && l == Analyse(l.who, Some(Held(e.pc).value.1)) && Held(e.pc).value.0 == pc.ad.adId)
    && (e.events != [] && e.events[0].Analysed? ==>
          e.events[0].who == l.who && Held(pc) == Some((e.events[0].id, e.events[0].analysis)))
  }

  lemma CompleteAnalyses(st: Ads, clock: int, l: Label, pc: Pc)
    requires l.Run? && WellKeyed(st) && PcOk(st, clock, pc)
    requires pc.CmLock? || pc.CmCas? || pc.CmRead? || pc.CmWrite? || pc.CmDone?
    ensures AnalysisOrigin(l, pc, CompleteStep(st, clock, l.who, pc, l.flag))
  {
  }

  lemma OthersHoldNothing(cfg: Config, st: Ads, clock: int, who: Tid, pc: Pc, flag: bool)
    requires cfg.Valid() && IsRunnable(pc) && (pc.Pushing? ==> Held(pc.next).None?)
    requires !pc.CmLock? && !pc.CmCas? && !pc.CmRead? && !pc.CmWrite? && !pc.CmDone?
    ensures var e := Exec(cfg, st, clock, who, pc, flag);
      Held(e.pc).None? && (e.events != [] ==> !e.events[0].Analysed?)
  {
  }

  lemma ExecAnalyses(cfg: Config, st: Ads, clock: int, l: Label, pc: Pc)
    requires cfg.Valid() && l.Run? && IsRunnable(pc) && PcOk(st, clock, pc) && WellKeyed(st)
    ensures AnalysisOrigin(l, pc, Exec(cfg, st, clock, l.who, pc, l.flag))
  {
    if pc.CmLock? || pc.CmCas? || pc.CmRead? || pc.CmWrite? || pc.CmDone? {
      CompleteAnalyses(st, clock, l, pc);
    } else {
      OthersHoldNothing(cfg, st, clock, l.who, pc, l.flag);
    }
  }

  lemma StepAnalyses(cfg: Config, s: State, l: Label)
    requires cfg.Valid() && Inv(s) && Allowed(s, l) && !l.Tick?
    ensures AnalysisOrigin(l, PcOf(s, l.who), EffectOf(cfg, s, l))
  {
    if l.Run? {
      LegalStoreIsConsistent(s.log);
      assert PcOk(s.store, s.clock, PcOf(s, l.who));
      ExecAnalyses(cfg, s.store, s.clock, l, PcOf(s, l.who));
    }
  }

  lemma StillAnalysed(r: Trace, n: nat, who: Tid, id: string, analysis: AdAnalysis)
    requires WasAnalysed(r, n, who, id, analysis)
    ensures WasAnalysed(r, n + 1, who, id, analysis)
  {
    var i: nat :| i < n && AnalysedAt(r, i, who, id, analysis);
    assert i < n + 1 && AnalysedAt(r, i, who, id, analysis);
  }

  lemma MoverIsAnalysed(r: Trace, n: nat, l: Label, e: Effect)
    requires n < |r.labels| && n < |r.states| && l == r.labels[n] && !l.Tick?
    requires AnalysesKnown(r, n) && AnalysisOrigin(l, PcOf(r.states[n], l.who), e)
    ensures HeldIsAnalysed(r, n + 1, l.who, e.pc)
  {
    var pc := PcOf(r.states[n], l.who);
    if Held(e.pc).Some? {
      var (id, analysis) := Held(e.pc).value;
      if Held(e.pc) == Held(pc) {
        assert HeldIsAnalysed(r, n, l.who, r.states[n].pcs[l.who]);
        StillAnalysed(r, n, l.who, id, analysis);
      } else {
        assert AnalysedAt(r, n, l.who, id, analysis);
      }
    }
  }

  lemma AnalysesAfter(r: Trace, n: nat, l: Label, e: Effect)
    requires n < |r.labels| && n + 1 < |r.states| && l == r.labels[n] && !l.Tick? && |e.events| <= 1
    requires r.states[n + 1] == After(r.states[n], l.who, e)
    requires AnalysesKnown(r, n) && AnalysisOrigin(l, PcOf(r.states[n], l.who), e)
    ensures AnalysesKnown(r, n + 1)
  {
    var s, s' := r.states[n], r.states[n + 1];
    forall event | event in s'.log ensures EventIsAnalysed(r, n + 1, event) {
      if event.Analysed? {
        if event in s.log {
          assert EventIsAnalysed(r, n, event);
        } else {
          assert event == e.events[0] && HeldIsAnalysed(r, n, l.who, s.pcs[l.who]);
        }
        StillAnalysed(r, n, event.who, event.id, event.analysis);
      }
    }
    forall t | t in s'.pcs ensures HeldIsAnalysed(r, n + 1, t, s'.pcs[t]) {
      if t == l.who {
        MoverIsAnalysed(r, n, l, e);
      } else if Held(s.pcs[t]).Some? {
        assert HeldIsAnalysed(r, n, t, s.pcs[t]);
        StillAnalysed(r, n, t, Held(s.pcs[t]).value.0, Held(s.pcs[t]).value.1);
      }
    }
  }

  lemma AnalysesAfterTick(r: Trace, n: nat)
    requires n + 1 < |r.states| && AnalysesKnown(r, n)
    requires r.states[n + 1].log == r.states[n].log && r.states[n + 1].pcs == r.states[n].pcs
    ensures AnalysesKnown(r, n + 1)
  {
    var s := r.states[n];
    forall event | event in s.log ensures EventIsAnalysed(r, n + 1, event) {
      if event.Analysed? {
        assert EventIsAnalysed(r, n, event);
        StillAnalysed(r, n, event.who, event.id, event.analysis);
      }
    }
    forall t | t in s.pcs ensures HeldIsAnalysed(r, n + 1, t, s.pcs[t]) {
      if Held(s.pcs[t]).Some? {
        assert HeldIsAnalysed(r, n, t, s.pcs[t]);
        StillAnalysed(r, n, t, Held(s.pcs[t]).value.0, Held(s.pcs[t]).value.1);
      }
    }
  }

  lemma {:induction false} AnalysesAreKnown(cfg: Config, r: Trace, n: nat)
    requires IsRun(cfg, r) && n < |r.states|
    ensures AnalysesKnown(r, n)
  {
    if n > 0 {
      var s, l, s' := r.states[n - 1], r.labels[n - 1], r.states[n];
      AnalysesAreKnown(cfg, r, n - 1);
      StepOfRun(cfg, r, n - 1);
      if l.Tick? {
        AnalysesAfterTick(r, n - 1);
      } else {
        var e := StepEffect(cfg, s, l, s');
        StepAnalyses(cfg, s, l);
        AnalysesAfter(r, n - 1, l, e);
      }
    }
  }

  /**
   In every reachable state a stored analysis is one that some thread's analyser returned for
   a delivered copy of that very ad, and that thread stored it.
   */
  lemma StoredAnalysisIsReturned(cfg: Config, r: Trace, n: nat, id: string)
    requires IsRun(cfg, r) && n < |r.states| && id in r.states[n].store && r.states[n].store[id].analysis.Some?
    ensures exists who, ep: int ::
      && WasAnalysed(r, n, who, id, r.states[n].store[id].analysis.value)
      && Analysed(who, id, r.states[n].store[id].analysis.value, ep) in r.states[n].log
  {
    var s := r.states[n];
    RunKeepsInv(cfg, r, n);
    LegalStoreIsConsistent(s.log);
    LegalStoreIsAccounted(s.log, id);
    AnalysesAreKnown(cfg, r, n);
    var k: nat :| AnalysedBy(s.log, k, s.store[id]);
    assert EventIsAnalysed(r, n, s.log[k]);
    assert s.log[k] == Analysed(s.log[k].who, id, s.store[id].analysis.value, s.log[k].ep);
  }
}
