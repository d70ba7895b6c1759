/**
 What each operation writes when its thread is left alone, field by field: the store calls of
 the protocol, run one after another, leave the records the queue's methods leave.
 */
module Solo {
  import opened Models
  import opened Store
  import opened Lifecycle
  import opened Protocol

  predicate IsStored(st: Ads, ad: Record) {
    ad.adId != "" && ad.adId in st && st[ad.adId] == ad
  }

  /** One more store call of the thread; whatever does not run stays where it is. */
  ghost function Next(cfg: Config, clock: int, who: Tid, e: Effect, flag: bool): Effect
    requires cfg.Valid()
  {
    if IsRunnable(e.pc) then Exec(cfg, e.store, clock, who, e.pc, flag) else e
  }

  /** Enqueue below capacity: the check, the queue time, the write. */
  lemma SoloEnqueue(cfg: Config, st: Ads, clock: int, who: Tid, ad: Record, flag: bool)
    requires cfg.Valid() && IsStored(st, ad)
    requires cfg.maxCapacity > 0 ==> |IdsWith(st, Queued)| < cfg.maxCapacity
    ensures var stamped := Next(cfg, clock, who, Next(cfg, clock, who, Silent(st, EnqCheck(ad)), flag), flag);
      var written := Next(cfg, clock, who, stamped, flag);
      var queued := ad.(status := Queued, queuedAt := Some(clock), effectivePriority := ad.submission.priority,
                        version := ad.version + 1);
      && written == Effect(st[ad.adId := queued], Pushing(ad.adId, ad.submission.priority, Idle), [Enqueued(ad.adId, clock)])
      && Next(cfg, clock, who, written, true).store == st[ad.adId := queued]
      && Next(cfg, clock, who, written, true).pc == Idle
  {
    var queued := ad.WithStatus(Queued, clock);
    PushAfterUpdate(st, queued);
  }

  /** At capacity: refused, and nothing written. */
  lemma SoloRefusal(cfg: Config, st: Ads, clock: int, who: Tid, ad: Record, flag: bool)
    requires cfg.Valid() && cfg.maxCapacity > 0 && |IdsWith(st, Queued)| >= cfg.maxCapacity
    ensures Next(cfg, clock, who, Silent(st, EnqCheck(ad)), flag) == Silent(st, Idle)
  {
  }

  /** The claim of a queued ad at its version: the swap, the read, the signing write. */
  lemma SoloClaim(cfg: Config, st: Ads, clock: int, who: Tid, ad: Record, fast: bool, flag: bool)
    requires cfg.Valid() && IsStored(st, ad) && ad.status == Queued
    ensures var swapped := Next(cfg, clock, who, Silent(st, DqCas(fast, ad.adId, ad.version)), flag);
      var signed := Next(cfg, clock, who, Next(cfg, clock, who, swapped, flag), flag);
      var claimed := ad.(status := Processing, workerId := who.instanceId, attempts := ad.attempts + 1,
                         version := ad.version + 2);
      signed.store == st[ad.adId := claimed] && signed.pc == Working(claimed)
  {
  }

  /** A dequeue of a popped queued ad up to its claim. */
  lemma SoloLookup(cfg: Config, st: Ads, clock: int, who: Tid, ad: Record)
    requires cfg.Valid() && IsStored(st, ad) && ad.status == Queued
    ensures Next(cfg, clock, who, Next(cfg, clock, who, Silent(st, DqGet(ad.adId)), true), true) ==
            Silent(st, DqCas(true, ad.adId, ad.version))
  {
  }

  /** Complete of a processing ad at its version: lease, swap, read, analysis. */
  lemma SoloComplete(cfg: Config, st: Ads, clock: int, who: Tid, ad: Record, analysis: AdAnalysis)
    requires cfg.Valid() && IsStored(st, ad) && ad.status == Processing
    ensures var swapped := Next(cfg, clock, who, Next(cfg, clock, who, Silent(st, CmLock(ad, analysis)), true), true);
      var written := Next(cfg, clock, who, Next(cfg, clock, who, swapped, true), true);
      var completed := ad.(status := Completed, completedAt := Some(clock), analysis := Some(analysis),
                           version := ad.version + 2);
      written.store == st[ad.adId := completed] && written.pc == CmDone(ad.adId)
  {
  }

  /** The expiry pass on an expired ad with attempts left; a memory cache also resets its urgency. */
  lemma SoloRequeue(cfg: Config, st: Ads, clock: int, who: Tid, ad: Record, rest: seq<Record>, memoryCache: bool)
    requires cfg.Valid() && IsStored(st, ad) && ad.status == Processing && ad.attempts < cfg.maxAttempts
    ensures var swapped := Next(cfg, clock, who, Silent(st, RqLoop([ad] + rest)), true);
      var pushed := Next(cfg, clock, who, Next(cfg, clock, who, swapped, true), memoryCache);
      var back := ad.(status := Queued, version := ad.version + 1);
      && pushed.pc == RqLoop(rest)
      && pushed.store == st[ad.adId := if memoryCache then back.(effectivePriority := ad.submission.priority) else back]
  {
    assert ([ad] + rest)[1..] == rest;
  }

  /** The expiry pass on an expired ad out of attempts, and on one that has not expired. */
  lemma SoloAbandon(cfg: Config, st: Ads, clock: int, who: Tid, ad: Record, rest: seq<Record>)
    requires cfg.Valid() && IsStored(st, ad) && ad.attempts >= cfg.maxAttempts
    ensures var written := Next(cfg, clock, who, Silent(st, RqLoop([ad] + rest)), true);
      && written.pc == RqLoop(rest)
      && written.store == st[ad.adId :=
           ad.(status := Failed, error := "Exceeded maximum processing attempts", version := ad.version + 1)]
    ensures Next(cfg, clock, who, Silent(st, RqLoop([ad] + rest)), false) == Silent(st, RqLoop(rest))
  {
    assert ([ad] + rest)[1..] == rest;
  }

  /** The aging pass on a queued ad: its computed priority, in a new version exactly if it is another. */
  lemma SoloAging(cfg: Config, st: Ads, clock: int, who: Tid, ad: Record, rest: seq<Record>, flag: bool)
    requires cfg.Valid() && IsStored(st, ad) && ad.status == Queued && ad.queuedAt.Some?
    ensures var p := ad.ComputedPriority(cfg.agingRate, cfg.maxWaitTime, clock);
      var seen := Next(cfg, clock, who, Silent(st, PrLoop(Aging, [ad] + rest)), flag);
      if p == ad.effectivePriority then seen == Silent(st, PrLoop(Aging, rest))
      else
        var written := Next(cfg, clock, who, Next(cfg, clock, who, seen, flag), flag);
        && Next(cfg, clock, who, written, flag).pc == PrLoop(Aging, rest)
        && Next(cfg, clock, who, written, flag).store ==
           st[ad.adId := ad.(effectivePriority := p, version := ad.version + 1)]
  {
    assert ([ad] + rest)[1..] == rest;
    SoloRaise(cfg, st, clock, who, ad, Aging, ad.ComputedPriority(cfg.agingRate, cfg.maxWaitTime, clock), rest, flag);
  }

  /** The boost pass on a queued ad: priority 1 exactly if it has waited too long. */
  lemma SoloBoost(cfg: Config, st: Ads, clock: int, who: Tid, ad: Record, rest: seq<Record>, flag: bool)
    requires cfg.Valid() && IsStored(st, ad) && ad.status == Queued && ad.queuedAt.Some?
    ensures var seen := Next(cfg, clock, who, Silent(st, PrLoop(Boosting, [ad] + rest)), flag);
      if clock - ad.queuedAt.value <= cfg.maxWaitTime then seen == Silent(st, PrLoop(Boosting, rest))
      else
        var written := Next(cfg, clock, who, Next(cfg, clock, who, seen, flag), flag);
        && Next(cfg, clock, who, written, flag).pc == PrLoop(Boosting, rest)
        && Next(cfg, clock, who, written, flag).store == st[ad.adId := ad.(effectivePriority := 1, version := ad.version + 1)]
  {
    assert ([ad] + rest)[1..] == rest;
    SoloRaise(cfg, st, clock, who, ad, Boosting, 1, rest, flag);
  }

  lemma SoloRaise(cfg: Config, st: Ads, clock: int, who: Tid, ad: Record, pass: Pass, p: int, rest: seq<Record>, flag: bool)
    requires cfg.Valid() && IsStored(st, ad)
    ensures var written := Next(cfg, clock, who, Next(cfg, clock, who, Silent(st, PrRead(pass, ad, p, rest)), flag), flag);
      && Next(cfg, clock, who, written, flag).pc == PrLoop(pass, rest)
      && Next(cfg, clock, who, written, flag).store == st[ad.adId := ad.(effectivePriority := p, version := ad.version + 1)]
  {
    PushAfterUpdate(st, ad.(effectivePriority := p));
  }

  // ---------- when a call does not succeed ----------

  /** What sends a dequeue back to the cache, and what ends it; none of it writes anything. */
  lemma DequeueRetries(cfg: Config, st: Ads, clock: int, who: Tid, fast: bool, id: string, version: int)
    requires cfg.Valid() && id != ""
    ensures id !in st ==> Next(cfg, clock, who, Silent(st, DqGet(id)), true) == Silent(st, DqPop)
    ensures id in st && st[id].status in {Processing, Completed, Failed} ==>
      Next(cfg, clock, who, Silent(st, DqGet(id)), true) == Silent(st, DqPop)
    ensures Next(cfg, clock, who, Silent(st, DqLock(fast, id, version)), false) == Silent(st, if fast then DqPop else Idle)
    ensures id in st && (st[id].version != version || st[id].status != Queued) ==>
      Next(cfg, clock, who, Silent(st, DqCas(fast, id, version)), true) == Silent(st, if fast then DqPop else Idle)
  {
  }

  /** A completion without the lease, of another version or not of a processing ad, ends and writes nothing. */
  lemma CompleteRefusals(cfg: Config, st: Ads, clock: int, who: Tid, ad: Record, analysis: AdAnalysis)
    requires cfg.Valid()
    ensures Next(cfg, clock, who, Silent(st, CmLock(ad, analysis)), false) == Silent(st, Idle)
    ensures ad.adId !in st || st[ad.adId].version != ad.version || st[ad.adId].status != Processing ==>
      Next(cfg, clock, who, Silent(st, CmCas(ad, analysis)), true) == Silent(st, Idle)
  {
  }

  /** An ad that has changed since it was listed is skipped by every pass. */
  lemma PassesSkipChangedAds(cfg: Config, st: Ads, clock: int, who: Tid, pass: Pass, ad: Record, p: int,
                             rest: seq<Record>, flag: bool)
    requires cfg.Valid() && ad.adId != "" && ad.adId in st && st[ad.adId].version != ad.version
    ensures Next(cfg, clock, who, Silent(st, RqLoop([ad] + rest)), flag) == Silent(st, RqLoop(rest))
    ensures Next(cfg, clock, who, Silent(st, PrRead(pass, ad, p, rest)), flag) == Silent(st, PrLoop(pass, rest))
    ensures Next(cfg, clock, who, Silent(st, PrWrite(pass, ad, p, rest)), flag) == Silent(st, PrLoop(pass, rest))
  {
    assert ([ad] + rest)[1..] == rest;
  }

  /** A pass works through the newest hundred ads of its listing, in order. */
  lemma PassesTakeAHundred(cfg: Config, s: State, who: Tid, pass: Pass, full: seq<Record>)
    requires cfg.Valid() && PcOf(s, who).Idle? && who.instanceId != ""
    ensures var page := if |full| > 100 then full[..100] else full;
      && (Listing(s.store, Queued, NewestFirst, full) ==>
            EffectOf(cfg, s, StartPass(who, pass, full)) == Silent(s.store, PrLoop(pass, page)))
      && (Listing(s.store, Processing, NewestFirst, full) ==>
            EffectOf(cfg, s, StartRequeue(who, full)) == Silent(s.store, RqLoop(page)))
  {
    assert Page(full, PAGE_SIZE, 0) == if |full| > 100 then full[..100] else full;
  }

  /** How each answer of the environment is followed; only a submission writes. */
  lemma AnswersAreFollowed(cfg: Config, s: State, who: Tid, id: string, pick: Record, analysis: AdAnalysis)
    requires cfg.Valid() && who.instanceId != "" && id != ""
    ensures PcOf(s, who).DqPop? ==>
      && EffectOf(cfg, s, Pop(who, Some(id))) == Silent(s.store, DqGet(id))
      && EffectOf(cfg, s, Pop(who, None)) == Silent(s.store, DqFind)
    ensures PcOf(s, who).DqFind? && IsLeast(s.store, Queued, ByPriority, pick) ==>
      EffectOf(cfg, s, Find(who, Some(pick))) == Silent(s.store, DqLock(false, pick.adId, pick.version))
    ensures PcOf(s, who).DqFind? && IdsWith(s.store, Queued) == {} ==>
      EffectOf(cfg, s, Find(who, None)) == Silent(s.store, Idle)
    ensures PcOf(s, who).Working? ==>
      && EffectOf(cfg, s, Analyse(who, Some(analysis))) == Silent(s.store, CmLock(PcOf(s, who).ad, analysis))
      && EffectOf(cfg, s, Analyse(who, None)) == Silent(s.store, Idle)
  {
  }

  /** A submission saves a new ad, field by field, and goes on to enqueue it. */
  lemma SubmissionSaves(cfg: Config, s: State, who: Tid, id: string, submission: AdSubmission, at: int)
    requires cfg.Valid() && who.instanceId != "" && PcOf(s, who).Idle? && id != "" && id !in s.store && at <= s.clock
    ensures var priority := if submission.priority <= 0 then 5 else submission.priority;
      var ad := Record(id, submission.(priority := priority), Submitted, at, None, None, None, None, "", 0, "", 1, 0);
      EffectOf(cfg, s, Submit(who, id, submission, at)) == Effect(s.store[id := ad], EnqCheck(ad), [Saved(ad)])
  {
  }
}
