/**
 The queue operations of internal/processor/queue.go as threads over one shared store.

 Every thread has a program counter holding the copies it has fetched.  One step is one
 store call, so every window between two store calls of an operation is open to every
 other thread.  Lock outcomes, cache pops, analysis results, the expiry test and the
 clock are chosen by the environment.
 */
module Protocol {
  import opened Models
  import opened Store
  import opened Lifecycle

  datatype Config = Config(maxCapacity: int, maxAttempts: int, agingRate: real, maxWaitTime: int)
  {
    predicate Valid() {
      maxAttempts >= 1 && agingRate >= 0.0 && maxWaitTime > 0
    }
  }

  /** The two priority maintenance passes. */
  datatype Pass = Aging | Boosting

  const PAGE_SIZE: nat := 100

  /**
   Where a thread is.  A counter names the store call it is about to make, and holds the
   local copies that call depends on.  `wrote` is the record the thread's own status
   compare-and-swap left in the store; the code does not keep it.
   */
  datatype Pc =
    | Idle
    // SubmitAd, Enqueue
    | EnqCheck(ad: Record)
    | EnqStamp(ad: Record)
    | EnqUpdate(ad: Record, at: int)
    // PushToQueue, then the rest of the operation
    | Pushing(id: string, priority: int, next: Pc)
    // Dequeue
    | DqPop
    | DqGet(id: string)
    | DqFind
    | DqLock(fast: bool, id: string, version: int)
    | DqCas(fast: bool, id: string, version: int)
    | DqRead(wrote: Record)
    | DqWrite(wrote: Record, base: Record)
    // processLoop holding a delivered ad
    | Working(ad: Record)
    // Complete
    | CmLock(ad: Record, analysis: AdAnalysis)
    | CmCas(ad: Record, analysis: AdAnalysis)
    | CmRead(wrote: Record, analysis: AdAnalysis)
    | CmWrite(wrote: Record, base: Record, analysis: AdAnalysis)
    | CmDone(id: string)
    // RequeueExpired
    | RqLoop(todo: seq<Record>)
    | RqRead(id: string, todo: seq<Record>)
    // updateQueuePriorities, BoostLowPriorityItems
    | PrLoop(pass: Pass, todo: seq<Record>)
    | PrRead(pass: Pass, seen: Record, priority: int, todo: seq<Record>)
    | PrWrite(pass: Pass, base: Record, priority: int, todo: seq<Record>)

  type WorkerKey = (string, nat)

  datatype State = State(
    store: Ads,
    pcs: map<Tid, Pc>,              // a thread not listed is idle
    clock: int,
    processed: multiset<WorkerKey>, // each worker's `processed` counter
    log: Log)                       // the events so far

  function PcOf(s: State, who: Tid): Pc {
    if who in s.pcs then s.pcs[who] else Idle
  }

  /** The outcome of one store call: the new store, where the thread goes, and what happened. */
  datatype Effect = Effect(store: Ads, pc: Pc, events: seq<Event>)

  function Silent(st: Ads, pc: Pc): Effect {
    Effect(st, pc, [])
  }

  // ---------- one store call ----------

  /** CountByStatus, reading the queue time, and the Update that enters the queue. */
  ghost function EnqueueStep(cfg: Config, st: Ads, clock: int, pc: Pc): Effect
    requires pc.EnqCheck? || pc.EnqStamp? || pc.EnqUpdate?
  {
    match pc
    case EnqCheck(ad) =>
      Silent(st, if cfg.maxCapacity > 0 && |IdsWith(st, Queued)| >= cfg.maxCapacity then Idle else EnqStamp(ad))
    case EnqStamp(ad) => Silent(st, EnqUpdate(ad, clock))
    case EnqUpdate(ad, at) =>
      var queued := ad.WithStatus(Queued, at);
      if UpdateError(st, queued).Some? then Silent(st, Idle)
      else Effect(Update(st, queued), Pushing(ad.adId, queued.effectivePriority, Idle), [Enqueued(ad.adId, at)])
  }

  /** A push reaches the shared record only when the cache is the memory store itself. */
  function PushStep(st: Ads, pc: Pc, memoryCache: bool): Effect
    requires pc.Pushing?
  {
    if memoryCache && PushError(st, pc.id).None?
    then Effect(Push(st, pc.id, pc.priority), pc.next, [Pushed(pc.id, pc.priority)])
    else Silent(st, pc.next)
  }

  function DequeueStep(st: Ads, who: Tid, pc: Pc, locked: bool): Effect
    requires pc.DqGet? || pc.DqLock? || pc.DqCas? || pc.DqRead? || pc.DqWrite?
  {
    match pc
    case DqGet(id) =>
      (match Get(st, id)
       case Err(e) => Silent(st, if e == AdNotFound then DqPop else Idle)
       case Ok(ad) => Silent(st, if ad.IsProcessable() then DqLock(true, id, ad.version) else DqPop))
    case DqLock(fast, id, version) =>
      Silent(st, if locked then DqCas(fast, id, version) else if fast then DqPop else Idle)
    case DqCas(fast, id, version) =>
      var error := CasError(st, id, version, Queued);
      if error.Some? then Silent(st, if fast && error.value == ConcurrentModification then DqPop else Idle)
      else
        var st' := Cas(st, id, version, Queued, Processing, 0);
        Effect(st', DqRead(st'[id]), [Claimed(who, id)])
    case DqRead(wrote) =>
      (match Get(st, wrote.adId)
       case Err(_) => Silent(st, Idle)
       case Ok(ad) => Silent(st, DqWrite(wrote, ad)))
    case DqWrite(wrote, base) =>
      var mine := base.ClaimedBy(who.instanceId);
      if UpdateError(st, mine).Some? then Silent(st, Idle)
      else Effect(Update(st, mine), Working(NextVersion(mine)),
                  [Delivered(who, mine.adId, mine.version + 1, mine.effectivePriority)])
  }

  function CompleteStep(st: Ads, clock: int, who: Tid, pc: Pc, locked: bool): Effect
    requires pc.CmLock? || pc.CmCas? || pc.CmRead? || pc.CmWrite? || pc.CmDone?
  {
    match pc
    case CmLock(ad, analysis) => Silent(st, if locked then CmCas(ad, analysis) else Idle)
    case CmCas(ad, analysis) =>
      if CasError(st, ad.adId, ad.version, Processing).Some? then Silent(st, Idle)
      else
        var st' := Cas(st, ad.adId, ad.version, Processing, Completed, clock);
        Effect(st', CmRead(st'[ad.adId], analysis), [Finished(who, ad.adId, clock)])
    case CmRead(wrote, analysis) =>
      (match Get(st, wrote.adId)
       case Err(_) => Silent(st, Idle)
       case Ok(ad) => Silent(st, CmWrite(wrote, ad, analysis)))
    case CmWrite(wrote, base, analysis) =>
      var done := base.(analysis := Some(analysis));
      if UpdateError(st, done).Some? then Silent(st, Idle)
      else Effect(Update(st, done), CmDone(done.adId),
                  [Analysed(who, done.adId, analysis, done.effectivePriority)])
    case CmDone(id) => Effect(st, Idle, [Counted(who, id)])
  }

  function RequeueStep(cfg: Config, st: Ads, pc: Pc, expired: bool): Effect
    requires pc.RqLoop? || pc.RqRead?
  {
    match pc
    case RqLoop(todo) =>
      if todo == [] then Silent(st, Idle)
      else
        var ad, rest := todo[0], RqLoop(todo[1..]);
        if !expired then Silent(st, rest)
        else if ad.attempts >= cfg.maxAttempts then
          var failed := ad.WithError(MAX_ATTEMPTS_ERROR, 0);
          if UpdateError(st, failed).Some? then Silent(st, rest)
          else Effect(Update(st, failed), rest, [Abandoned(ad.adId, MAX_ATTEMPTS_ERROR, failed.effectivePriority)])
        else if CasError(st, ad.adId, ad.version, Processing).Some? then Silent(st, rest)
        else Effect(Cas(st, ad.adId, ad.version, Processing, Queued, 0), RqRead(ad.adId, todo[1..]),
                    [Requeued(ad.adId)])
    case RqRead(id, todo) =>
      (match Get(st, id)
       case Err(_) => Silent(st, RqLoop(todo))
       case Ok(ad) => Silent(st, Pushing(id, ad.submission.priority, RqLoop(todo))))
  }

  /** The priority a pass wants for a fetched ad, if it wants to write one. */
  function WantedPriority(cfg: Config, pass: Pass, ad: Record, clock: int): Option<int>
    requires cfg.Valid()
  {
    if ad.queuedAt.None? then None
    else match pass
      case Aging =>
        var p := ad.ComputedPriority(cfg.agingRate, cfg.maxWaitTime, clock);
        if p != ad.effectivePriority then Some(p) else None
      case Boosting => if ad.HasExceededMaxWaitTime(cfg.maxWaitTime, clock) then Some(1) else None
  }

  function PriorityStep(cfg: Config, st: Ads, clock: int, pc: Pc): Effect
    requires cfg.Valid()
    requires pc.PrLoop? || pc.PrRead? || pc.PrWrite?
  {
    match pc
    case PrLoop(pass, todo) =>
      if todo == [] then Silent(st, Idle)
      else
        var wanted := WantedPriority(cfg, pass, todo[0], clock);
        Silent(st, if wanted.None? then PrLoop(pass, todo[1..]) else PrRead(pass, todo[0], wanted.value, todo[1..]))
    case PrRead(pass, seen, priority, todo) =>
      (match Get(st, seen.adId)
       case Err(_) => Silent(st, PrLoop(pass, todo))
       case Ok(ad) =>
         Silent(st, if ad.version == seen.version then PrWrite(pass, ad, priority, todo) else PrLoop(pass, todo)))
    case PrWrite(pass, base, priority, todo) =>
      var raised := base.(effectivePriority := priority);
      if UpdateError(st, raised).Some? then Silent(st, PrLoop(pass, todo))
      else Effect(Update(st, raised), Pushing(base.adId, priority, PrLoop(pass, todo)),
                  [Reprioritised(base.adId, priority)])
  }

  /** A counter whose next store call depends on nothing but one environment choice. */
  predicate IsRunnable(pc: Pc) {
    !pc.Idle? && !pc.DqPop? && !pc.DqFind? && !pc.Working?
  }

  ghost function Exec(cfg: Config, st: Ads, clock: int, who: Tid, pc: Pc, flag: bool): Effect
    requires cfg.Valid() && IsRunnable(pc)
  {
    if pc.EnqCheck? || pc.EnqStamp? || pc.EnqUpdate? then EnqueueStep(cfg, st, clock, pc)
    else if pc.Pushing? then PushStep(st, pc, flag)
    else if pc.DqGet? || pc.DqLock? || pc.DqCas? || pc.DqRead? || pc.DqWrite? then DequeueStep(st, who, pc, flag)
    else if pc.RqLoop? || pc.RqRead? then RequeueStep(cfg, st, pc, flag)
    else if pc.PrLoop? || pc.PrRead? || pc.PrWrite? then PriorityStep(cfg, st, clock, pc)
    else CompleteStep(st, clock, who, pc, flag)
  }

  // ---------- one step of the system ----------

  /** Which thread moves, and what the environment decides for it. */
  datatype Label =
    | Submit(who: Tid, id: string, submission: AdSubmission, at: int) // SubmitAd up to its Save
    | StartDequeue(who: Tid)
    | Pop(who: Tid, hint: Option<string>)                    // PopFromQueue returned this, or failed
    | Find(who: Tid, pick: Option<Record>)                   // FindByPriority returned this, or nothing
    | Analyse(who: Tid, outcome: Option<AdAnalysis>)         // processAd returned this, or failed
    | StartRequeue(who: Tid, full: seq<Record>)              // FindByStatus cut this listing
    | StartPass(who: Tid, pass: Pass, full: seq<Record>)
    | Run(who: Tid, flag: bool)
    | Tick(now: int)

  ghost predicate Allowed(s: State, l: Label) {
    if l.Tick? then l.now >= s.clock
    else l.who.instanceId != "" && var pc := PcOf(s, l.who);
      match l
      case Submit(_, id, _, at) => pc.Idle? && id != "" && id !in s.store && at <= s.clock
      case StartDequeue(_) => pc.Idle?
      case Pop(_, hint) => pc.DqPop? && hint != Some("")
      case Find(_, pick) =>
        pc.DqFind? && (if pick.None? then IdsWith(s.store, Queued) == {}
                       else IsLeast(s.store, Queued, ByPriority, pick.value))
      case Analyse(_, _) => pc.Working?
      case StartRequeue(_, full) => pc.Idle? && Listing(s.store, Processing, NewestFirst, full)
      case StartPass(_, _, full) => pc.Idle? && Listing(s.store, Queued, NewestFirst, full)
      case Run(_, _) => IsRunnable(pc)
      case Tick(_) => true
  }

  ghost function EffectOf(cfg: Config, s: State, l: Label): Effect
    requires cfg.Valid() && Allowed(s, l) && !l.Tick?
  {
    var st, pc := s.store, PcOf(s, l.who);
    match l
    case Submit(_, id, submission, at) =>
      var ad := NewRecord(submission, at).(adId := id);
      Effect(st[id := ad], EnqCheck(ad), [Saved(ad)])
    case StartDequeue(_) => Silent(st, DqPop)
    case Pop(_, hint) => Silent(st, if hint.None? then DqFind else DqGet(hint.value))
    case Find(_, pick) => Silent(st, if pick.None? then Idle else DqLock(false, pick.value.adId, pick.value.version))
    case Analyse(_, outcome) => Silent(st, if outcome.None? then Idle else CmLock(pc.ad, outcome.value))
    case StartRequeue(_, full) => Silent(st, RqLoop(Page(full, PAGE_SIZE, 0)))
    case StartPass(_, pass, full) => Silent(st, PrLoop(pass, Page(full, PAGE_SIZE, 0)))
    case Run(who, flag) => Exec(cfg, st, s.clock, who, pc, flag)
  }

  /** The state once a thread's store call had this effect. */
  function After(s: State, who: Tid, e: Effect): State {
    s.(store := e.store,
       pcs := s.pcs[who := e.pc],
       processed := if PcOf(s, who).CmDone?
                    then s.processed + multiset{(who.instanceId, who.worker)} else s.processed,
       log := s.log + e.events)
  }

  ghost function Do(cfg: Config, s: State, l: Label): State
    requires cfg.Valid() && Allowed(s, l)
  {
    if l.Tick? then s.(clock := l.now) else After(s, l.who, EffectOf(cfg, s, l))
  }

  ghost predicate Init(s: State) {
    s.store == map[] && s.pcs == map[] && s.processed == multiset{} && s.log == []
  }

  ghost predicate Step(cfg: Config, s: State, l: Label, s': State) {
    cfg.Valid() && Allowed(s, l) && s' == Do(cfg, s, l)
  }

  /** A finite run: its states, and the label of each step. */
  datatype Trace = Trace(states: seq<State>, labels: seq<Label>)

  ghost predicate StepAt(cfg: Config, r: Trace, i: nat)
    requires i < |r.labels| && |r.states| == |r.labels| + 1
  {
    Step(cfg, r.states[i], r.labels[i], r.states[i + 1])
  }

  ghost predicate IsRun(cfg: Config, r: Trace) {
    && |r.states| == |r.labels| + 1
    && Init(r.states[0])
    && forall i: nat | i < |r.labels| :: StepAt(cfg, r, i)
  }
}
