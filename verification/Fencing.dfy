/**
 The version is a fencing token: only the latest delivery of an ad can complete it,
 whatever happens to the leases.
 */
module Fencing {
  import opened Models
  import opened Store
  import opened Lifecycle
  import opened Protocol
  import opened Refinement
  import opened Runs

  /** log[i] is the latest versioned write of the ad. */
  ghost predicate QuietSince(log: Log, i: int, id: string) {
    forall k | i < k < |log| && 0 <= k :: log[k].Subject() == id ==> !log[k].Versioned()
  }

  ghost predicate IsDelivery(log: Log, i: nat, who: Tid, id: string, version: int) {
    i < |log| && log[i].Delivered? && log[i].who == who && log[i].id == id && log[i].version == version
  }

  /** The delivered copy a thread works on, until its completion swap. */
  function Carried(pc: Pc): Option<Record> {
    match pc
    case Working(ad) => Some(ad)
    case CmLock(ad, _) => Some(ad)
    case CmCas(ad, _) => Some(ad)
    case _ => None
  }

  /** The copy was delivered to this thread; at the stored version, nothing has been written since. */
  ghost predicate Holds(st: Ads, log: Log, who: Tid, ad: Record) {
    exists i: nat :: IsDelivery(log, i, who, ad.adId, ad.version)
      && (ad.adId in st && st[ad.adId].version == ad.version ==> QuietSince(log, i, ad.adId))
  }

  /** A completion directly follows its thread's delivery among the versioned writes of the ad. */
  ghost predicate FinishIsFenced(log: Log, j: nat) {
    j < |log| && log[j].Finished? ==>
      exists i: nat, version: int :: i < j && IsDelivery(log, i, log[j].who, log[j].id, version)
        && QuietSince(log[..j], i, log[j].id)
  }

  ghost predicate FenceInv(s: State) {
    && Inv(s)
    && (forall t | t in s.pcs && Carried(s.pcs[t]).Some? :: Holds(s.store, s.log, t, Carried(s.pcs[t]).value))
    && (forall j: nat | j < |s.log| :: FinishIsFenced(s.log, j))
  }

  ghost predicate NewlyCarried(who: Tid, pc: Pc, e: Effect) {
    Carried(e.pc).Some? && Carried(e.pc) != Carried(pc) ==>
      var ad := Carried(e.pc).value;
      e.events == [Delivered(who, ad.adId, ad.version, ad.effectivePriority)]
  }

  lemma ExecCarries(cfg: Config, st: Ads, clock: int, who: Tid, pc: Pc, flag: bool)
    requires cfg.Valid() && IsRunnable(pc) && (pc.Pushing? ==> Carried(pc.next).None?)
    ensures NewlyCarried(who, pc, Exec(cfg, st, clock, who, pc, flag))
  {
  }

  /** A thread comes to carry a copy only by the write that delivers it. */
  lemma CarriedOrigin(cfg: Config, s: State, l: Label)
    requires cfg.Valid() && Inv(s) && Allowed(s, l) && !l.Tick?
    ensures NewlyCarried(l.who, PcOf(s, l.who), EffectOf(cfg, s, l))
  {
    var pc := PcOf(s, l.who);
    if l.Run? {
      assert PcOk(s.store, s.clock, pc);
      ExecCarries(cfg, s.store, s.clock, l.who, pc, l.flag);
    }
  }

  /** A completion event is the status swap of a carried copy at the stored version. */
  ghost predicate FinishesCarried(st: Ads, who: Tid, pc: Pc, e: Effect) {
    e.events != [] && e.events[0].Finished? ==>
      && pc.CmCas? && e.events[0].who == who && e.events[0].id == pc.ad.adId
      && pc.ad.adId in st && st[pc.ad.adId].version == pc.ad.version
      && e.pc.CmRead?
  }

  lemma FinishOrigin(cfg: Config, s: State, l: Label)
    requires cfg.Valid() && Allowed(s, l) && !l.Tick?
    ensures FinishesCarried(s.store, l.who, PcOf(s, l.who), EffectOf(cfg, s, l))
  {
  }

  lemma HoldsStable(st: Ads, log: Log, e: Event, who: Tid, ad: Record)
    requires Holds(st, log, who, ad) && Enabled(st, e) && WellKeyed(st)
    requires ad.adId in st && ad.version <= st[ad.adId].version
    ensures Holds(Apply(st, e), log + [e], who, ad)
  {
    var i: nat :| IsDelivery(log, i, who, ad.adId, ad.version)
      && (st[ad.adId].version == ad.version ==> QuietSince(log, i, ad.adId));
    EventEffect(st, e);
    assert IsDelivery(log + [e], i, who, ad.adId, ad.version);
  }

  lemma FencedStable(log: Log, e: Event, j: nat)
    requires j < |log| && FinishIsFenced(log, j)
    ensures FinishIsFenced(log + [e], j)
  {
    if log[j].Finished? {
      var i: nat, version: int :| i < j && IsDelivery(log, i, log[j].who, log[j].id, version)
        && QuietSince(log[..j], i, log[j].id);
      assert IsDelivery(log + [e], i, log[j].who, log[j].id, version);
      assert (log + [e])[..j] == log[..j];
    }
  }

  lemma NewFinishIsFenced(st: Ads, log: Log, who: Tid, ad: Record, at: int)
    requires Holds(st, log, who, ad) && ad.adId in st && st[ad.adId].version == ad.version
    ensures FinishIsFenced(log + [Finished(who, ad.adId, at)], |log|)
  {
    var i: nat :| IsDelivery(log, i, who, ad.adId, ad.version) && QuietSince(log, i, ad.adId);
    var log' := log + [Finished(who, ad.adId, at)];
    assert IsDelivery(log', i, who, ad.adId, ad.version);
    assert log'[..|log|] == log;
  }

  lemma CarriedIsCopy(s: State, t: Tid)
    requires Inv(s) && t in s.pcs && Carried(s.pcs[t]).Some?
    ensures CopyOf(s.store, s.clock, Carried(s.pcs[t]).value)
  {
    assert PcOk(s.store, s.clock, s.pcs[t]);
  }

  lemma NewHolder(st: Ads, log: Log, i: nat, who: Tid, ad: Record)
    requires i + 1 == |log| && IsDelivery(log, i, who, ad.adId, ad.version)
    ensures Holds(st, log, who, ad)
  {
    assert QuietSince(log, i, ad.adId);
  }

  lemma HoldersStay(s: State, who: Tid, e: Effect, t: Tid)
    requires FenceInv(s) && StoreOk(s.store, s.clock) && Sound(s.store, s.clock, PcOf(s, who), e)
    requires NewlyCarried(who, PcOf(s, who), e)
    requires t in After(s, who, e).pcs && Carried(After(s, who, e).pcs[t]).Some?
    ensures var s' := After(s, who, e); Holds(s'.store, s'.log, t, Carried(s'.pcs[t]).value)
  {
    var s' := After(s, who, e);
    if t in s.pcs && Carried(s.pcs[t]) == Carried(s'.pcs[t]) {
      CarriedIsCopy(s, t);
      if e.events == [] {
        assert s.log + e.events == s.log;
      } else {
        assert e.events == [e.events[0]];
        HoldsStable(s.store, s.log, e.events[0], t, Carried(s.pcs[t]).value);
      }
    } else {
      NewHolder(s'.store, s'.log, |s.log|, t, Carried(s'.pcs[t]).value);
    }
  }

  lemma FencesStay(s: State, who: Tid, e: Effect, j: nat)
    requires FenceInv(s) && Sound(s.store, s.clock, PcOf(s, who), e)
    requires FinishesCarried(s.store, who, PcOf(s, who), e) && j < |s.log + e.events|
    ensures FinishIsFenced(s.log + e.events, j)
  {
    if e.events == [] {
      assert s.log + e.events == s.log;
    } else {
      var event := e.events[0];
      assert e.events == [event];
      if j < |s.log| {
        FencedStable(s.log, event, j);
      } else if event.Finished? {
        NewFinishIsFenced(s.store, s.log, who, PcOf(s, who).ad, event.at);
      }
    }
  }

  lemma EffectKeepsFences(s: State, who: Tid, e: Effect)
    requires FenceInv(s) && StoreOk(s.store, s.clock) && Sound(s.store, s.clock, PcOf(s, who), e)
    requires NewlyCarried(who, PcOf(s, who), e) && FinishesCarried(s.store, who, PcOf(s, who), e)
    ensures FenceInv(After(s, who, e))
  {
    EffectKeepsInv(s, who, e);
    var s' := After(s, who, e);
    forall t | t in s'.pcs && Carried(s'.pcs[t]).Some?
      ensures Holds(s'.store, s'.log, t, Carried(s'.pcs[t]).value)
    {
      HoldersStay(s, who, e, t);
    }
    forall j: nat | j < |s'.log| ensures FinishIsFenced(s'.log, j) {
      FencesStay(s, who, e, j);
    }
  }

  lemma FenceInvStep(cfg: Config, s: State, l: Label, s': State)
    requires FenceInv(s) && Step(cfg, s, l, s')
    ensures FenceInv(s')
  {
    if l.Tick? {
      TickKeepsInv(s, l.now);
    } else {
      var e := StepEffect(cfg, s, l, s');
      CarriedOrigin(cfg, s, l);
      FinishOrigin(cfg, s, l);
      EffectKeepsFences(s, l.who, e);
    }
  }

  lemma {:induction false} RunKeepsFenceInv(cfg: Config, r: Trace, i: nat)
    requires IsRun(cfg, r) && i < |r.states|
    ensures FenceInv(r.states[i])
  {
    if i > 0 {
      RunKeepsFenceInv(cfg, r, i - 1);
      assert StepAt(cfg, r, i - 1);
      FenceInvStep(cfg, r.states[i - 1], r.labels[i - 1], r.states[i]);
    }
  }

  /**
   The fencing theorem.  In every run, a Complete whose status swap succeeds was made by the
   thread of the ad's latest delivery, with no versioned write of the ad in between, and
   therefore with no later delivery.
   */
  lemma OnlyTheLatestDeliveryCompletes(cfg: Config, r: Trace, n: nat, j: nat)
    requires IsRun(cfg, r) && n < |r.states| && j < |r.states[n].log| && r.states[n].log[j].Finished?
    ensures var log := r.states[n].log;
      exists i: nat, version: int :: i < j
        && IsDelivery(log, i, log[j].who, log[j].id, version)
        && (forall k | i < k < j && log[k].Subject() == log[j].id :: !log[k].Versioned() && !log[k].Delivered?)
  {
    RunKeepsFenceInv(cfg, r, n);
    var log := r.states[n].log;
    assert FinishIsFenced(log, j);
    var i: nat, version: int :| i < j && IsDelivery(log, i, log[j].who, log[j].id, version)
      && QuietSince(log[..j], i, log[j].id);
    forall k | i < k < j && log[k].Subject() == log[j].id ensures !log[k].Versioned() && !log[k].Delivered? {
      assert log[..j][k] == log[k];
    }
  }
}
