/**
 Every step of the protocol is one event of the lifecycle, or none.

 The heart is `CopyOf`: a copy fetched at some version still agrees with the store, up to
 the effective priority, for as long as the versions agree.  It turns each versioned write
 of a stale-looking copy into one enabled event.
 */
module Refinement {
  import opened Models
  import opened Store
  import opened Lifecycle
  import opened Protocol
  import AgingLaws = Aging

  /** a was read from the store at some earlier moment. */
  ghost predicate CopyOf(st: Ads, clock: int, a: Record) {
    && a.adId != "" && a.adId in st
    && AdEvolves(a, st[a.adId])
    && Consistent(a)
    && (a.queuedAt.Some? ==> a.queuedAt.value <= clock)
  }

  ghost predicate CopiesWith(st: Ads, clock: int, todo: seq<Record>, status: AdStatus) {
    forall i | 0 <= i < |todo| :: CopyOf(st, clock, todo[i]) && todo[i].status == status
  }

  ghost predicate PastSubmitted(st: Ads, id: string) {
    id != "" && id in st && st[id].status != Submitted
  }

  ghost predicate AwaitsAnalysis(st: Ads, id: string) {
    id != "" && id in st && st[id].status == Completed && st[id].analysis.None?
  }

  /** What a thread's local copies guarantee at each counter. */
  ghost predicate PcOk(st: Ads, clock: int, pc: Pc) {
    match pc
    case EnqCheck(ad) => CopyOf(st, clock, ad) && ad.status == Submitted
    case EnqStamp(ad) => CopyOf(st, clock, ad) && ad.status == Submitted
    case EnqUpdate(ad, at) => CopyOf(st, clock, ad) && ad.status == Submitted && at <= clock
    case Pushing(id, priority, next) =>
      PastSubmitted(st, id) && PriorityInRange(st[id], priority)
      && (next.Idle? || next.RqLoop? || next.PrLoop?) && PcOk(st, clock, next)
    case DqRead(wrote) => PastSubmitted(st, wrote.adId)
    case DqWrite(wrote, base) =>
      CopyOf(st, clock, base) && base.adId == wrote.adId && base.status != Submitted
    case Working(ad) => CopyOf(st, clock, ad)
    case CmLock(ad, _) => CopyOf(st, clock, ad)
    case CmCas(ad, _) => CopyOf(st, clock, ad)
    case CmRead(wrote, _) => AwaitsAnalysis(st, wrote.adId)
    case CmWrite(wrote, base, _) =>
      CopyOf(st, clock, base) && base.adId == wrote.adId && base.status == Completed
      && AwaitsAnalysis(st, wrote.adId)
    case CmDone(id) => id in st && st[id].analysis.Some?
    case RqLoop(todo) => CopiesWith(st, clock, todo, Processing)
    case RqRead(id, todo) => PastSubmitted(st, id) && CopiesWith(st, clock, todo, Processing)
    case PrLoop(_, todo) => CopiesWith(st, clock, todo, Queued)
    case PrRead(_, seen, priority, todo) =>
      CopyOf(st, clock, seen) && seen.status == Queued && PriorityInRange(seen, priority)
      && CopiesWith(st, clock, todo, Queued)
    case PrWrite(_, base, priority, todo) =>
      CopyOf(st, clock, base) && base.status == Queued && PriorityInRange(base, priority)
      && CopiesWith(st, clock, todo, Queued)
    case _ => true
  }

  /** The ad whose completion this thread carries, from its status swap until it is counted. */
  function Completing(pc: Pc): Option<string> {
    match pc
    case CmRead(wrote, _) => Some(wrote.adId)
    case CmWrite(wrote, _, _) => Some(wrote.adId)
    case CmDone(id) => Some(id)
    case _ => None
  }

  ghost predicate OneCompleter(pcs: map<Tid, Pc>) {
    forall t, u | t in pcs && u in pcs && t != u ::
      Completing(pcs[t]).Some? ==> Completing(pcs[t]) != Completing(pcs[u])
  }

  ghost predicate QueuedBefore(st: Ads, clock: int) {
    forall id | id in st && st[id].queuedAt.Some? :: st[id].queuedAt.value <= clock
  }

  ghost predicate Inv(s: State) {
    && Legal(s.log) && s.store == Replay(s.log)
    && QueuedBefore(s.store, s.clock)
    && (forall t | t in s.pcs :: PcOk(s.store, s.clock, s.pcs[t]))
    && OneCompleter(s.pcs)
  }

  // ---------- copies and counters survive other threads' steps ----------

  lemma CopyStable(st: Ads, st': Ads, clock: int, clock': int, a: Record)
    requires CopyOf(st, clock, a) && Evolves(st, st') && clock <= clock'
    ensures CopyOf(st', clock', a)
  {
    assert AdEvolves(st[a.adId], st'[a.adId]);
  }

  lemma CopiesStable(st: Ads, st': Ads, clock: int, clock': int, todo: seq<Record>, status: AdStatus)
    requires CopiesWith(st, clock, todo, status) && Evolves(st, st') && clock <= clock'
    ensures CopiesWith(st', clock', todo, status)
  {
    forall i | 0 <= i < |todo| ensures CopyOf(st', clock', todo[i]) {
      CopyStable(st, st', clock, clock', todo[i]);
    }
  }

  lemma PcStable(st: Ads, st': Ads, clock: int, clock': int, pc: Pc)
    requires PcOk(st, clock, pc) && Evolves(st, st') && clock <= clock'
    requires forall id | AwaitsAnalysis(st, id) && Completing(pc) == Some(id) :: st'[id].analysis.None?
    ensures PcOk(st', clock', pc)
    decreases pc
  {
    match pc
    case EnqCheck(ad) => CopyStable(st, st', clock, clock', ad);
    case EnqStamp(ad) => CopyStable(st, st', clock, clock', ad);
    case EnqUpdate(ad, _) => CopyStable(st, st', clock, clock', ad);
    case Pushing(id, _, next) =>
      assert AdEvolves(st[id], st'[id]);
      PcStable(st, st', clock, clock', next);
    case DqRead(wrote) => assert AdEvolves(st[wrote.adId], st'[wrote.adId]);
    case DqWrite(_, base) => CopyStable(st, st', clock, clock', base);
    case Working(ad) => CopyStable(st, st', clock, clock', ad);
    case CmLock(ad, _) => CopyStable(st, st', clock, clock', ad);
    case CmCas(ad, _) => CopyStable(st, st', clock, clock', ad);
    case CmRead(wrote, _) => assert AdEvolves(st[wrote.adId], st'[wrote.adId]);
    case CmWrite(wrote, base, _) =>
      CopyStable(st, st', clock, clock', base);
      assert AdEvolves(st[wrote.adId], st'[wrote.adId]);
    case CmDone(id) => assert AdEvolves(st[id], st'[id]);
    case RqLoop(todo) => CopiesStable(st, st', clock, clock', todo, Processing);
    case RqRead(id, todo) =>
      assert AdEvolves(st[id], st'[id]);
      CopiesStable(st, st', clock, clock', todo, Processing);
    case PrLoop(_, todo) => CopiesStable(st, st', clock, clock', todo, Queued);
    case PrRead(_, seen, _, todo) =>
      CopyStable(st, st', clock, clock', seen);
      CopiesStable(st, st', clock, clock', todo, Queued);
    case PrWrite(_, base, _, todo) =>
      CopyStable(st, st', clock, clock', base);
      CopiesStable(st, st', clock, clock', todo, Queued);
    case _ =>
  }

  // ---------- each store call is one event or none ----------

  ghost predicate StoreOk(st: Ads, clock: int) {
    WellKeyed(st) && QueuedBefore(st, clock) && forall id | id in st :: Consistent(st[id])
  }

  /** The effect is one enabled event, or leaves the store alone; the counter it leads to is sound. */
  ghost predicate Sound(st: Ads, clock: int, pc: Pc, e: Effect) {
    && |e.events| <= 1
    && (e.events == [] ==> e.store == st)
    && (e.events != [] ==>
          Enabled(st, e.events[0]) && e.store == Apply(st, e.events[0]) && QueuedBefore(e.store, clock))
    && PcOk(e.store, clock, e.pc)
    && (Completing(e.pc).Some? && Completing(e.pc) != Completing(pc) ==>
          Completing(e.pc).value in st && st[Completing(e.pc).value].status == Processing)
    && (e.events != [] && e.events[0].Analysed? ==> Completing(pc) == Some(e.events[0].id))
  }

  lemma FreshCopy(st: Ads, clock: int, id: string)
    requires StoreOk(st, clock) && id in st
    ensures CopyOf(st, clock, st[id])
  {
  }

  /** A write to a copied record is a fresh copy again. */
  lemma SoundEvent(st: Ads, clock: int, e: Event)
    requires StoreOk(st, clock) && Enabled(st, e) && (e.Enqueued? ==> e.at <= clock)
    requires e.Saved? ==> e.ad.queuedAt.None?
    ensures Evolves(st, Apply(st, e)) && StoreOk(Apply(st, e), clock)
  {
    EventEffect(st, e);
    ConsistentStep(st, e);
  }

  lemma EnqueueSound(cfg: Config, st: Ads, clock: int, pc: Pc)
    requires StoreOk(st, clock) && PcOk(st, clock, pc) && (pc.EnqCheck? || pc.EnqStamp? || pc.EnqUpdate?)
    ensures Sound(st, clock, pc, EnqueueStep(cfg, st, clock, pc))
  {
  }

  lemma PushSound(st: Ads, clock: int, pc: Pc, memoryCache: bool)
    requires StoreOk(st, clock) && PcOk(st, clock, pc) && pc.Pushing?
    ensures Sound(st, clock, pc, PushStep(st, pc, memoryCache))
  {
    var e := PushStep(st, pc, memoryCache);
    if e.events != [] {
      SoundEvent(st, clock, e.events[0]);
      PcStable(st, e.store, clock, clock, pc.next);
    }
  }

  /** A copy of the current version is the stored record, except perhaps for a push since. */
  lemma CurrentCopy(st: Ads, clock: int, a: Record)
    requires CopyOf(st, clock, a) && st[a.adId].version == a.version
    ensures a == st[a.adId].(effectivePriority := a.effectivePriority)
  {
  }

  lemma ClaimSound(st: Ads, clock: int, who: Tid, pc: Pc, locked: bool)
    requires StoreOk(st, clock) && pc.DqCas?
    ensures Sound(st, clock, pc, DequeueStep(st, who, pc, locked))
  {
    if CasError(st, pc.id, pc.version, Queued).None? {
      SoundEvent(st, clock, Claimed(who, pc.id));
    }
  }

  lemma DeliverySound(st: Ads, clock: int, who: Tid, pc: Pc, locked: bool)
    requires StoreOk(st, clock) && PcOk(st, clock, pc) && pc.DqWrite? && who.instanceId != ""
    ensures Sound(st, clock, pc, DequeueStep(st, who, pc, locked))
  {
    var base := pc.base;
    if st[base.adId].version == base.version {
      CurrentCopy(st, clock, base);
      var event := Delivered(who, base.adId, base.version + 1, base.effectivePriority);
      SoundEvent(st, clock, event);
      assert Apply(st, event)[base.adId] == NextVersion(base.ClaimedBy(who.instanceId));
      FreshCopy(Apply(st, event), clock, base.adId);
    }
  }

  /** The reads and the lease on the way to a claim change nothing. */
  lemma LookupSound(st: Ads, clock: int, who: Tid, pc: Pc, locked: bool)
    requires StoreOk(st, clock) && PcOk(st, clock, pc) && (pc.DqGet? || pc.DqLock? || pc.DqRead?)
    ensures Sound(st, clock, pc, DequeueStep(st, who, pc, locked))
  {
    if pc.DqRead? {
      FreshCopy(st, clock, pc.wrote.adId);
    }
  }

  lemma DequeueSound(st: Ads, clock: int, who: Tid, pc: Pc, locked: bool)
    requires StoreOk(st, clock) && PcOk(st, clock, pc) && who.instanceId != ""
    requires pc.DqGet? || pc.DqLock? || pc.DqCas? || pc.DqRead? || pc.DqWrite?
    ensures Sound(st, clock, pc, DequeueStep(st, who, pc, locked))
  {
    if pc.DqCas? { ClaimSound(st, clock, who, pc, locked); }
    else if pc.DqWrite? { DeliverySound(st, clock, who, pc, locked); }
    else { LookupSound(st, clock, who, pc, locked); }
  }

  lemma FinishSound(st: Ads, clock: int, who: Tid, pc: Pc, locked: bool)
    requires StoreOk(st, clock) && PcOk(st, clock, pc) && pc.CmCas?
    ensures Sound(st, clock, pc, CompleteStep(st, clock, who, pc, locked))
  {
    if CasError(st, pc.ad.adId, pc.ad.version, Processing).None? {
      SoundEvent(st, clock, Finished(who, pc.ad.adId, clock));
    }
  }

  lemma AnalysisSound(st: Ads, clock: int, who: Tid, pc: Pc, locked: bool)
    requires StoreOk(st, clock) && PcOk(st, clock, pc) && pc.CmWrite?
    ensures Sound(st, clock, pc, CompleteStep(st, clock, who, pc, locked))
  {
    if st[pc.base.adId].version == pc.base.version {
      CurrentCopy(st, clock, pc.base);
      var event := Analysed(who, pc.base.adId, pc.analysis, pc.base.effectivePriority);
      SoundEvent(st, clock, event);
      var e := CompleteStep(st, clock, who, pc, locked);
      assert e.store == Apply(st, event) && e.events == [event];
    }
  }

  /** Taking the lease, reading back and counting write no ad. */
  lemma CompletionReadsSound(st: Ads, clock: int, who: Tid, pc: Pc, locked: bool)
    requires StoreOk(st, clock) && PcOk(st, clock, pc) && (pc.CmLock? || pc.CmRead? || pc.CmDone?)
    ensures Sound(st, clock, pc, CompleteStep(st, clock, who, pc, locked))
  {
    if pc.CmRead? {
      FreshCopy(st, clock, pc.wrote.adId);
    }
  }

  lemma CompleteSound(st: Ads, clock: int, who: Tid, pc: Pc, locked: bool)
    requires StoreOk(st, clock) && PcOk(st, clock, pc)
    requires pc.CmLock? || pc.CmCas? || pc.CmRead? || pc.CmWrite? || pc.CmDone?
    ensures Sound(st, clock, pc, CompleteStep(st, clock, who, pc, locked))
  {
    if pc.CmCas? { FinishSound(st, clock, who, pc, locked); }
    else if pc.CmWrite? { AnalysisSound(st, clock, who, pc, locked); }
    else { CompletionReadsSound(st, clock, who, pc, locked); }
  }

  /** Marking an expired ad failed overwrites it with the pass's copy: that is one event. */
  lemma AbandonIsEvent(st: Ads, clock: int, ad: Record)
    requires StoreOk(st, clock) && CopyOf(st, clock, ad) && ad.status == Processing
    requires st[ad.adId].version == ad.version
    ensures var event := Abandoned(ad.adId, MAX_ATTEMPTS_ERROR, ad.effectivePriority);
            Enabled(st, event) && Update(st, ad.WithError(MAX_ATTEMPTS_ERROR, 0)) == Apply(st, event)
  {
    CurrentCopy(st, clock, ad);
    assert NextVersion(ad.WithError(MAX_ATTEMPTS_ERROR, 0))
        == Changed(st[ad.adId], Abandoned(ad.adId, MAX_ATTEMPTS_ERROR, ad.effectivePriority));
  }

  lemma AbandonSound(cfg: Config, st: Ads, clock: int, todo: seq<Record>)
    requires StoreOk(st, clock) && CopiesWith(st, clock, todo, Processing)
    requires todo != [] && st[todo[0].adId].version == todo[0].version && todo[0].attempts >= cfg.maxAttempts
    ensures Sound(st, clock, RqLoop(todo), RequeueStep(cfg, st, RqLoop(todo), true))
  {
    var ad := todo[0];
    AbandonIsEvent(st, clock, ad);
    var event := Abandoned(ad.adId, MAX_ATTEMPTS_ERROR, ad.effectivePriority);
    SoundEvent(st, clock, event);
    CopiesStable(st, Apply(st, event), clock, clock, todo[1..], Processing);
    var e := RequeueStep(cfg, st, RqLoop(todo), true);
    assert e == Effect(Apply(st, event), RqLoop(todo[1..]), [event]);
  }

  lemma ReturnSound(cfg: Config, st: Ads, clock: int, todo: seq<Record>)
    requires StoreOk(st, clock) && CopiesWith(st, clock, todo, Processing)
    requires todo != [] && st[todo[0].adId].version == todo[0].version && todo[0].attempts < cfg.maxAttempts
    ensures Sound(st, clock, RqLoop(todo), RequeueStep(cfg, st, RqLoop(todo), true))
  {
    var ad := todo[0];
    var event := Requeued(ad.adId);
    SoundEvent(st, clock, event);
    CopiesStable(st, Apply(st, event), clock, clock, todo[1..], Processing);
    var e := RequeueStep(cfg, st, RqLoop(todo), true);
    assert e.store == Apply(st, event) && e.events == [event];
  }

  lemma ExpiryLoopSound(cfg: Config, st: Ads, clock: int, todo: seq<Record>, expired: bool)
    requires StoreOk(st, clock) && CopiesWith(st, clock, todo, Processing)
    ensures Sound(st, clock, RqLoop(todo), RequeueStep(cfg, st, RqLoop(todo), expired))
  {
    if todo != [] && expired && st[todo[0].adId].version == todo[0].version {
      if todo[0].attempts >= cfg.maxAttempts {
        AbandonSound(cfg, st, clock, todo);
      } else {
        ReturnSound(cfg, st, clock, todo);
      }
    }
  }

  lemma RequeueSound(cfg: Config, st: Ads, clock: int, pc: Pc, expired: bool)
    requires StoreOk(st, clock) && PcOk(st, clock, pc) && (pc.RqLoop? || pc.RqRead?)
    ensures Sound(st, clock, pc, RequeueStep(cfg, st, pc, expired))
  {
    if pc.RqLoop? {
      ExpiryLoopSound(cfg, st, clock, pc.todo, expired);
    }
  }

  lemma WantedInRange(cfg: Config, pass: Pass, ad: Record, clock: int)
    requires cfg.Valid() && Consistent(ad) && ad.status == Queued
    requires ad.queuedAt.Some? ==> ad.queuedAt.value <= clock
    ensures var wanted := WantedPriority(cfg, pass, ad, clock);
            wanted.Some? ==> PriorityInRange(ad, wanted.value)
  {
    AgingLaws.AgedPriorityBounds(ad.submission.priority, ad.WaitingTime(clock), cfg.agingRate, cfg.maxWaitTime);
  }

  lemma ReprioritySound(cfg: Config, st: Ads, clock: int, pc: Pc)
    requires cfg.Valid() && StoreOk(st, clock) && PcOk(st, clock, pc)
    requires pc.PrWrite? && st[pc.base.adId].version == pc.base.version
    ensures Sound(st, clock, pc, PriorityStep(cfg, st, clock, pc))
  {
    CurrentCopy(st, clock, pc.base);
    var event := Reprioritised(pc.base.adId, pc.priority);
    SoundEvent(st, clock, event);
    CopiesStable(st, Apply(st, event), clock, clock, pc.todo, Queued);
    assert PriorityStep(cfg, st, clock, pc).store == Apply(st, event);
  }

  lemma PassLoopSound(cfg: Config, st: Ads, clock: int, pass: Pass, todo: seq<Record>)
    requires cfg.Valid() && StoreOk(st, clock) && CopiesWith(st, clock, todo, Queued)
    ensures Sound(st, clock, PrLoop(pass, todo), PriorityStep(cfg, st, clock, PrLoop(pass, todo)))
  {
    if todo != [] {
      WantedInRange(cfg, pass, todo[0], clock);
    }
  }

  lemma PrioritySound(cfg: Config, st: Ads, clock: int, pc: Pc)
    requires cfg.Valid() && StoreOk(st, clock) && PcOk(st, clock, pc)
    requires pc.PrLoop? || pc.PrRead? || pc.PrWrite?
    ensures Sound(st, clock, pc, PriorityStep(cfg, st, clock, pc))
  {
    if pc.PrLoop? {
      PassLoopSound(cfg, st, clock, pc.pass, pc.todo);
    } else if pc.PrRead? {
      FreshCopy(st, clock, pc.seen.adId);
    } else if st[pc.base.adId].version == pc.base.version {
      ReprioritySound(cfg, st, clock, pc);
    }
  }

  lemma ExecSound(cfg: Config, st: Ads, clock: int, who: Tid, pc: Pc, flag: bool)
    requires cfg.Valid() && IsRunnable(pc) && StoreOk(st, clock) && PcOk(st, clock, pc) && who.instanceId != ""
    ensures Sound(st, clock, pc, Exec(cfg, st, clock, who, pc, flag))
  {
    if pc.EnqCheck? || pc.EnqStamp? || pc.EnqUpdate? { EnqueueSound(cfg, st, clock, pc); }
    else if pc.Pushing? { PushSound(st, clock, pc, flag); }
    else if pc.DqGet? || pc.DqLock? || pc.DqCas? || pc.DqRead? || pc.DqWrite? { DequeueSound(st, clock, who, pc, flag); }
    else if pc.RqLoop? || pc.RqRead? { RequeueSound(cfg, st, clock, pc, flag); }
    else if pc.PrLoop? || pc.PrRead? || pc.PrWrite? { PrioritySound(cfg, st, clock, pc); }
    else { CompleteSound(st, clock, who, pc, flag); }
  }

  lemma PageOfCopies(st: Ads, clock: int, status: AdStatus, full: seq<Record>)
    requires StoreOk(st, clock) && Listing(st, status, NewestFirst, full)
    ensures CopiesWith(st, clock, Page(full, PAGE_SIZE, 0), status)
  {
    forall i | 0 <= i < |full| ensures CopyOf(st, clock, full[i]) && full[i].status == status {
      FreshCopy(st, clock, full[i].adId);
    }
  }

  lemma SubmitSound(cfg: Config, s: State, l: Label)
    requires cfg.Valid() && Allowed(s, l) && l.Submit? && StoreOk(s.store, s.clock)
    ensures Sound(s.store, s.clock, PcOf(s, l.who), EffectOf(cfg, s, l))
  {
    SoundEvent(s.store, s.clock, EffectOf(cfg, s, l).events[0]);
  }

  /** Starting an operation, and taking an answer of the environment, write nothing. */
  lemma SilentSound(cfg: Config, s: State, l: Label)
    requires cfg.Valid() && Allowed(s, l) && !l.Tick? && !l.Run? && !l.Submit?
    requires StoreOk(s.store, s.clock) && PcOk(s.store, s.clock, PcOf(s, l.who))
    ensures Sound(s.store, s.clock, PcOf(s, l.who), EffectOf(cfg, s, l))
  {
    if l.StartRequeue? {
      PageOfCopies(s.store, s.clock, Processing, l.full);
    } else if l.StartPass? {
      PageOfCopies(s.store, s.clock, Queued, l.full);
    }
  }

  lemma EffectSound(cfg: Config, s: State, l: Label)
    requires cfg.Valid() && Inv(s) && Allowed(s, l) && !l.Tick?
    ensures StoreOk(s.store, s.clock)
    ensures Sound(s.store, s.clock, PcOf(s, l.who), EffectOf(cfg, s, l))
  {
    LegalStoreIsConsistent(s.log);
    var pc := PcOf(s, l.who);
    assert PcOk(s.store, s.clock, pc);
    if l.Run? {
      ExecSound(cfg, s.store, s.clock, l.who, pc, l.flag);
    } else if l.Submit? {
      SubmitSound(cfg, s, l);
    } else {
      SilentSound(cfg, s, l);
    }
  }

  /** A step of a thread is one sound effect. */
  lemma StepEffect(cfg: Config, s: State, l: Label, s': State) returns (e: Effect)
    requires Inv(s) && Step(cfg, s, l, s') && !l.Tick?
    ensures e == EffectOf(cfg, s, l) && s' == After(s, l.who, e)
    ensures StoreOk(s.store, s.clock) && Sound(s.store, s.clock, PcOf(s, l.who), e)
  {
    EffectSound(cfg, s, l);
    e := EffectOf(cfg, s, l);
  }

  // ---------- the refinement ----------

  /** A protocol step is one enabled event of the lifecycle, or a stutter. */
  ghost predicate Refines(s: State, s': State) {
    && s.clock <= s'.clock
    && (|| (s'.log == s.log && s'.store == s.store)
        || (exists e :: Enabled(s.store, e) && s'.log == s.log + [e] && s'.store == Apply(s.store, e)))
  }

  lemma SoundRefines(s: State, who: Tid, e: Effect)
    requires Inv(s) && StoreOk(s.store, s.clock) && Sound(s.store, s.clock, PcOf(s, who), e)
    ensures var s' := After(s, who, e);
      && Refines(s, s') && Evolves(s.store, s'.store)
      && Legal(s'.log) && s'.store == Replay(s'.log) && QueuedBefore(s'.store, s'.clock)
  {
    if e.events == [] {
      assert s.log + e.events == s.log;
    } else {
      assert e.events == [e.events[0]];
      LegalExtend(s.log, e.events[0]);
      EventEffect(s.store, e.events[0]);
    }
  }

  lemma StepRefines(cfg: Config, s: State, l: Label, s': State)
    requires Inv(s) && Step(cfg, s, l, s')
    ensures Refines(s, s') && Evolves(s.store, s'.store)
    ensures Legal(s'.log) && s'.store == Replay(s'.log) && QueuedBefore(s'.store, s'.clock)
  {
    if !l.Tick? {
      var e := StepEffect(cfg, s, l, s');
      SoundRefines(s, l.who, e);
    }
  }

  /** A thread enters completion only on an ad that is processing, so never on another's. */
  lemma CompleterIsNew(s: State, who: Tid, u: Tid, e: Effect)
    requires Inv(s) && Sound(s.store, s.clock, PcOf(s, who), e) && u in s.pcs && u != who
    ensures Completing(e.pc).Some? ==> Completing(s.pcs[u]) != Completing(e.pc)
  {
    assert PcOk(s.store, s.clock, s.pcs[u]);
    LegalStoreIsConsistent(s.log);
    if who in s.pcs && Completing(e.pc) == Completing(s.pcs[who]) {
      assert Completing(s.pcs[who]).Some? ==> Completing(s.pcs[who]) != Completing(s.pcs[u]);
    }
  }

  lemma CompletersStayUnique(s: State, who: Tid, e: Effect)
    requires Inv(s) && Sound(s.store, s.clock, PcOf(s, who), e)
    ensures OneCompleter(After(s, who, e).pcs)
  {
    forall u | u in s.pcs && u != who
      ensures Completing(e.pc).Some? ==> Completing(s.pcs[u]) != Completing(e.pc)
    {
      CompleterIsNew(s, who, u, e);
    }
  }

  /** Only the thread completing an ad stores its analysis. */
  lemma OthersStillAwait(s: State, who: Tid, u: Tid, e: Effect)
    requires Inv(s) && Sound(s.store, s.clock, PcOf(s, who), e) && u in s.pcs && u != who
    ensures forall id | AwaitsAnalysis(s.store, id) && Completing(s.pcs[u]) == Some(id) ::
              id in e.store && e.store[id].analysis.None?
  {
    if e.events != [] && e.events[0].Analysed? && who in s.pcs {
      assert Completing(s.pcs[u]) != Completing(s.pcs[who]);
    }
  }

  lemma OtherCountersStay(s: State, who: Tid, u: Tid, e: Effect)
    requires Inv(s) && StoreOk(s.store, s.clock) && Sound(s.store, s.clock, PcOf(s, who), e)
    requires u in s.pcs && u != who
    ensures PcOk(e.store, s.clock, s.pcs[u])
  {
    SoundRefines(s, who, e);
    OthersStillAwait(s, who, u, e);
    PcStable(s.store, e.store, s.clock, s.clock, s.pcs[u]);
  }

  lemma EffectKeepsInv(s: State, who: Tid, e: Effect)
    requires Inv(s) && StoreOk(s.store, s.clock) && Sound(s.store, s.clock, PcOf(s, who), e)
    ensures Inv(After(s, who, e))
  {
    SoundRefines(s, who, e);
    CompletersStayUnique(s, who, e);
    forall u | u in s.pcs && u != who ensures PcOk(e.store, s.clock, s.pcs[u]) {
      OtherCountersStay(s, who, u, e);
    }
  }

  lemma TickKeepsInv(s: State, now: int)
    requires Inv(s) && s.clock <= now
    ensures Inv(s.(clock := now))
  {
    forall u | u in s.pcs ensures PcOk(s.store, now, s.pcs[u]) {
      PcStable(s.store, s.store, s.clock, now, s.pcs[u]);
    }
  }

  lemma InvStep(cfg: Config, s: State, l: Label, s': State)
    requires Inv(s) && Step(cfg, s, l, s')
    ensures Inv(s')
  {
    if l.Tick? {
      TickKeepsInv(s, l.now);
    } else {
      var e := StepEffect(cfg, s, l, s');
      EffectKeepsInv(s, l.who, e);
    }
  }
}
