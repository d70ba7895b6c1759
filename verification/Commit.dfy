/**
 Two-phase writes commit, and attempts stay bounded, on runs where expiry never strikes
 an ad between the status swap of a claim and the write that finishes it.
 */
module Commit {
  import opened Models
  import opened Store
  import opened Lifecycle
  import opened Protocol
  import opened Refinement
  import opened Runs
  import opened Fencing

  /** What the status swap of a half-done claim or completion stored. */
  function Committing(pc: Pc): Option<Record> {
    match pc
    case DqRead(wrote) => Some(wrote)
    case DqWrite(wrote, _) => Some(wrote)
    case CmRead(wrote, _) => Some(wrote)
    case CmWrite(wrote, _, _) => Some(wrote)
    case _ => None
  }

  predicate InClaimWindow(pc: Pc) {
    pc.DqRead? || pc.DqWrite?
  }

  /** This step does not return or abandon an ad whose claim is half done. */
  ghost predicate Timely(s: State, s': State) {
    forall e | s'.log == s.log + [e] && (e.Requeued? || e.Abandoned?) ::
      forall t | t in s.pcs && InClaimWindow(s.pcs[t]) :: s.pcs[t].wrote.adId != e.id
  }

  ghost predicate TimelyAt(r: Trace, i: nat)
    requires i + 1 < |r.states|
  {
    Timely(r.states[i], r.states[i + 1])
  }

  ghost predicate IsTimelyRun(cfg: Config, r: Trace) {
    IsRun(cfg, r) && forall i: nat | i < |r.labels| :: TimelyAt(r, i)
  }

  /** The latest versioned write of the ad is this thread's claim. */
  ghost predicate LastWriteIsClaim(log: Log, who: Tid, id: string) {
    exists i: nat :: i < |log| && log[i] == Claimed(who, id) && QuietSince(log, i, id)
  }

  /** What a half-done two-phase write can rely on. */
  ghost predicate CommitOk(cfg: Config, st: Ads, log: Log, who: Tid, pc: Pc) {
    Committing(pc).Some? ==>
      var wrote := Committing(pc).value;
      && wrote.adId in st && SameButPriority(st[wrote.adId], wrote)
      && (pc.DqWrite? || pc.CmWrite? ==> SameButPriority(pc.base, wrote))
      && (if InClaimWindow(pc)
          then wrote.status == Processing && wrote.attempts < cfg.maxAttempts && LastWriteIsClaim(log, who, wrote.adId)
          else wrote.status == Completed)
  }

  ghost predicate OneCommitter(pcs: map<Tid, Pc>) {
    forall t, u | t in pcs && u in pcs && t != u && Committing(pcs[t]).Some? && Committing(pcs[u]).Some? ::
      Committing(pcs[t]).value.adId != Committing(pcs[u]).value.adId
  }

  ghost predicate AttemptsBounded(cfg: Config, st: Ads) {
    forall id | id in st ::
      && st[id].attempts <= cfg.maxAttempts
      && (st[id].status in {Submitted, Queued} ==> st[id].attempts < cfg.maxAttempts)
  }

  ghost predicate CommitInv(cfg: Config, s: State) {
    && FenceInv(s)
    && (forall t | t in s.pcs :: CommitOk(cfg, s.store, s.log, t, s.pcs[t]))
    && OneCommitter(s.pcs)
    && AttemptsBounded(cfg, s.store)
  }

  // ---------- where the events come from ----------

  /** The counter and the copy behind each event that could disturb a half-done write. */
  ghost predicate Origin(cfg: Config, st: Ads, who: Tid, pc: Pc, e: Event) {
    match e
    case Delivered(w, id, _, _) => w == who && pc.DqWrite? && pc.base.adId == id && pc.wrote.adId == id
    case Analysed(w, id, _, _) => w == who && pc.CmWrite? && pc.base.adId == id && pc.wrote.adId == id
    case Requeued(id) => id in st && st[id].attempts < cfg.maxAttempts
    case _ => true
  }

  ghost predicate EventOk(cfg: Config, st: Ads, who: Tid, pc: Pc, e: Effect) {
    e.events != [] ==> Origin(cfg, st, who, pc, e.events[0])
  }

  lemma EventOrigin(cfg: Config, s: State, l: Label)
    requires cfg.Valid() && Inv(s) && Allowed(s, l) && !l.Tick?
    ensures EventOk(cfg, s.store, l.who, PcOf(s, l.who), EffectOf(cfg, s, l))
  {
    if l.Run? {
      LegalStoreIsConsistent(s.log);
      assert PcOk(s.store, s.clock, PcOf(s, l.who));
      ExecOrigin(cfg, s.store, s.clock, l.who, PcOf(s, l.who), l.flag);
    }
  }

  lemma RequeueOrigin(cfg: Config, st: Ads, clock: int, who: Tid, pc: Pc, expired: bool)
    requires PcOk(st, clock, pc) && (pc.RqLoop? || pc.RqRead?)
    ensures EventOk(cfg, st, who, pc, RequeueStep(cfg, st, pc, expired))
  {
    if pc.RqLoop? && pc.todo != [] {
      assert CopyOf(st, clock, pc.todo[0]);
    }
  }

  lemma DequeueOrigin(cfg: Config, st: Ads, clock: int, who: Tid, pc: Pc, locked: bool)
    requires PcOk(st, clock, pc)
    requires pc.DqGet? || pc.DqLock? || pc.DqCas? || pc.DqRead? || pc.DqWrite?
    ensures EventOk(cfg, st, who, pc, DequeueStep(st, who, pc, locked))
  {
  }

  lemma ExecOrigin(cfg: Config, st: Ads, clock: int, who: Tid, pc: Pc, flag: bool)
    requires cfg.Valid() && IsRunnable(pc) && PcOk(st, clock, pc)
    ensures EventOk(cfg, st, who, pc, Exec(cfg, st, clock, who, pc, flag))
  {
    if pc.RqLoop? || pc.RqRead? {
      RequeueOrigin(cfg, st, clock, who, pc, flag);
    } else if pc.DqGet? || pc.DqLock? || pc.DqCas? || pc.DqRead? || pc.DqWrite? {
      DequeueOrigin(cfg, st, clock, who, pc, flag);
    }
  }

  /** All that is known of the effect a thread may have. */
  ghost predicate Explained(cfg: Config, s: State, who: Tid, e: Effect) {
    var pc := PcOf(s, who);
    && StoreOk(s.store, s.clock) && Sound(s.store, s.clock, pc, e)
    && EventOk(cfg, s.store, who, pc, e) && CommitOrigin(cfg, s.store, who, pc, e)
    && NewlyCarried(who, pc, e) && FinishesCarried(s.store, who, pc, e)
  }

  /** How a thread comes to be half-way through a two-phase write, or moves along it. */
  ghost predicate CommitOrigin(cfg: Config, st: Ads, who: Tid, pc: Pc, e: Effect) {
    Committing(e.pc).Some? ==>
      var wrote := Committing(e.pc).value;
      if Committing(pc) == Some(wrote) then
        && e.events == [] && InClaimWindow(pc) == InClaimWindow(e.pc)
        && (e.pc.DqWrite? || e.pc.CmWrite? ==> wrote.adId in st && e.pc.base == st[wrote.adId])
      else
        && !e.pc.DqWrite? && !e.pc.CmWrite? && wrote.adId in e.store && wrote == e.store[wrote.adId]
        && (|| (e.pc.DqRead? && e.events == [Claimed(who, wrote.adId)])
            || (e.pc.CmRead? && |e.events| == 1 && e.events[0].Finished? && e.events[0].id == wrote.adId))
  }

  lemma ExecCommitOrigin(cfg: Config, st: Ads, clock: int, who: Tid, pc: Pc, flag: bool)
    requires cfg.Valid() && IsRunnable(pc) && WellKeyed(st) && (pc.Pushing? ==> Committing(pc.next).None?)
    ensures CommitOrigin(cfg, st, who, pc, Exec(cfg, st, clock, who, pc, flag))
  {
  }

  lemma EffectCommitOrigin(cfg: Config, s: State, l: Label)
    requires cfg.Valid() && Inv(s) && Allowed(s, l) && !l.Tick?
    ensures CommitOrigin(cfg, s.store, l.who, PcOf(s, l.who), EffectOf(cfg, s, l))
  {
    var pc := PcOf(s, l.who);
    if l.Run? {
      assert PcOk(s.store, s.clock, pc);
      LegalStoreIsConsistent(s.log);
      ExecCommitOrigin(cfg, s.store, s.clock, l.who, pc, l.flag);
    }
  }

  // ---------- nothing disturbs a half-done write ----------

  /** An ad whose latest versioned write is a claim is not held by anybody at its stored version. */
  lemma ClaimedIsNotHeld(st: Ads, log: Log, u: Tid, who: Tid, ad: Record)
    requires LastWriteIsClaim(log, u, ad.adId) && ad.adId in st && st[ad.adId].version == ad.version
    ensures !Holds(st, log, who, ad)
  {
    var j: nat :| j < |log| && log[j] == Claimed(u, ad.adId) && QuietSince(log, j, ad.adId);
    forall i: nat | IsDelivery(log, i, who, ad.adId, ad.version) ensures !QuietSince(log, i, ad.adId) {
      assert i < j || i > j;
    }
  }

  /** So nobody's completion swap can succeed while a claim is half done. */
  lemma NoFinishInClaimWindow(cfg: Config, s: State, who: Tid, e: Effect, u: Tid, id: string)
    requires CommitInv(cfg, s) && FinishesCarried(s.store, who, PcOf(s, who), e) && LastWriteIsClaim(s.log, u, id)
    ensures e.events != [] && e.events[0].Finished? ==> e.events[0].id != id
  {
    var pc := PcOf(s, who);
    if pc.CmCas? && pc.ad.adId == id && id in s.store && s.store[id].version == pc.ad.version {
      assert Holds(s.store, s.log, who, pc.ad);
      ClaimedIsNotHeld(s.store, s.log, u, who, pc.ad);
      assert false;
    }
  }

  /** Of the enabled events that may happen, only the thread's own second write is a versioned one. */
  lemma OnlyOwnWriteIsEnabled(cfg: Config, s: State, who: Tid, e: Event, u: Tid)
    requires CommitInv(cfg, s) && Enabled(s.store, e) && Origin(cfg, s.store, who, PcOf(s, who), e)
    requires u in s.pcs && Committing(s.pcs[u]).Some? && Committing(s.pcs[u]).value.adId == e.Subject()
    requires InClaimWindow(s.pcs[u]) ==> !e.Finished? && !e.Requeued? && !e.Abandoned?
    requires e.Versioned()
    ensures who == u && (e.Delivered? || e.Analysed?)
  {
    assert CommitOk(cfg, s.store, s.log, u, s.pcs[u]);
  }

  ghost predicate Disturbs(e: Effect, id: string) {
    e.events != [] && e.events[0].Versioned() && e.events[0].Subject() == id
  }

  lemma NotDisturbed(cfg: Config, s: State, who: Tid, e: Effect, u: Tid, id: string)
    requires CommitInv(cfg, s) && Explained(cfg, s, who, e) && Timely(s, After(s, who, e))
    requires u in s.pcs && Committing(s.pcs[u]).Some? && Committing(s.pcs[u]).value.adId == id
    ensures Disturbs(e, id) ==> who == u && (e.events[0].Delivered? || e.events[0].Analysed?)
  {
    if Disturbs(e, id) {
      assert After(s, who, e).log == s.log + [e.events[0]];
      assert CommitOk(cfg, s.store, s.log, u, s.pcs[u]);
      if InClaimWindow(s.pcs[u]) {
        NoFinishInClaimWindow(cfg, s, who, e, u, id);
      }
      OnlyOwnWriteIsEnabled(cfg, s, who, e.events[0], u);
    }
  }

  // ---------- the invariant is kept ----------

  lemma ClaimStaysLast(log: Log, e: Event, who: Tid, id: string)
    requires LastWriteIsClaim(log, who, id) && (e.Subject() == id ==> !e.Versioned())
    ensures LastWriteIsClaim(log + [e], who, id)
  {
    var i: nat :| i < |log| && log[i] == Claimed(who, id) && QuietSince(log, i, id);
    assert (log + [e])[i] == Claimed(who, id) && QuietSince(log + [e], i, id);
  }

  lemma NewClaimIsLast(log: Log, who: Tid, id: string)
    ensures LastWriteIsClaim(log + [Claimed(who, id)], who, id)
  {
    assert (log + [Claimed(who, id)])[|log|] == Claimed(who, id);
    assert QuietSince(log + [Claimed(who, id)], |log|, id);
  }

  /** An unversioned event, or one about another ad, leaves a half-done write as it was. */
  lemma CommitOkStable(cfg: Config, st: Ads, log: Log, e: Event, who: Tid, pc: Pc)
    requires CommitOk(cfg, st, log, who, pc) && Enabled(st, e) && WellKeyed(st)
    requires Committing(pc).Some? && e.Subject() == Committing(pc).value.adId ==> !e.Versioned()
    ensures CommitOk(cfg, Apply(st, e), log + [e], who, pc)
  {
    if Committing(pc).Some? {
      EventEffect(st, e);
      if InClaimWindow(pc) {
        ClaimStaysLast(log, e, who, Committing(pc).value.adId);
      }
    }
  }

  lemma OthersStayCommitted(cfg: Config, s: State, who: Tid, e: Effect, u: Tid)
    requires CommitInv(cfg, s) && Explained(cfg, s, who, e) && Timely(s, After(s, who, e))
    requires u in s.pcs && u != who
    ensures CommitOk(cfg, e.store, s.log + e.events, u, s.pcs[u])
  {
    assert CommitOk(cfg, s.store, s.log, u, s.pcs[u]);
    if e.events == [] {
      assert s.log + e.events == s.log;
    } else {
      assert e.events == [e.events[0]];
      if Committing(s.pcs[u]).Some? {
        NotDisturbed(cfg, s, who, e, u, Committing(s.pcs[u]).value.adId);
      }
      CommitOkStable(cfg, s.store, s.log, e.events[0], u, s.pcs[u]);
    }
  }

  lemma MoverCommits(cfg: Config, s: State, who: Tid, e: Effect)
    requires CommitInv(cfg, s) && Explained(cfg, s, who, e)
    ensures CommitOk(cfg, e.store, s.log + e.events, who, e.pc)
  {
    var pc := PcOf(s, who);
    if Committing(e.pc).Some? {
      var wrote := Committing(e.pc).value;
      if Committing(pc) == Some(wrote) {
        assert s.log + e.events == s.log;
        assert CommitOk(cfg, s.store, s.log, who, pc);
      } else if e.pc.DqRead? {
        NewClaimIsLast(s.log, who, wrote.adId);
        assert s.store[wrote.adId].attempts < cfg.maxAttempts;
      }
    }
  }

  lemma NewCommitterIsUnique(cfg: Config, s: State, who: Tid, e: Effect, u: Tid)
    requires CommitInv(cfg, s) && Explained(cfg, s, who, e) && Timely(s, After(s, who, e))
    requires u in s.pcs && u != who && Committing(e.pc).Some? && Committing(s.pcs[u]).Some?
    ensures Committing(e.pc).value.adId != Committing(s.pcs[u]).value.adId
  {
    if Committing(PcOf(s, who)) != Committing(e.pc) {
      NotDisturbed(cfg, s, who, e, u, Committing(s.pcs[u]).value.adId);
      assert Disturbs(e, Committing(e.pc).value.adId);
    } else {
      assert who in s.pcs;
    }
  }

  lemma CommittersStayUnique(cfg: Config, s: State, who: Tid, e: Effect)
    requires CommitInv(cfg, s) && Explained(cfg, s, who, e) && Timely(s, After(s, who, e))
    ensures OneCommitter(After(s, who, e).pcs)
  {
    forall u | u in s.pcs && u != who && Committing(e.pc).Some? && Committing(s.pcs[u]).Some?
      ensures Committing(e.pc).value.adId != Committing(s.pcs[u]).value.adId
    {
      NewCommitterIsUnique(cfg, s, who, e, u);
    }
  }

  lemma EventKeepsAttemptsBounded(cfg: Config, st: Ads, e: Event)
    requires cfg.Valid() && AttemptsBounded(cfg, st) && Enabled(st, e)
    requires e.Delivered? ==> st[e.id].status == Processing && st[e.id].attempts < cfg.maxAttempts
    requires e.Requeued? ==> st[e.id].attempts < cfg.maxAttempts
    ensures AttemptsBounded(cfg, Apply(st, e))
  {
  }

  lemma AttemptsStayBounded(cfg: Config, s: State, who: Tid, e: Effect)
    requires cfg.Valid() && CommitInv(cfg, s) && Explained(cfg, s, who, e)
    ensures AttemptsBounded(cfg, e.store)
  {
    if e.events != [] {
      if e.events[0].Delivered? {
        assert CommitOk(cfg, s.store, s.log, who, PcOf(s, who));
      }
      EventKeepsAttemptsBounded(cfg, s.store, e.events[0]);
    }
  }

  lemma EffectKeepsCommits(cfg: Config, s: State, who: Tid, e: Effect)
    requires cfg.Valid() && CommitInv(cfg, s) && Explained(cfg, s, who, e) && Timely(s, After(s, who, e))
    ensures CommitInv(cfg, After(s, who, e))
  {
    EffectKeepsFences(s, who, e);
    CommittersStayUnique(cfg, s, who, e);
    AttemptsStayBounded(cfg, s, who, e);
    MoverCommits(cfg, s, who, e);
    forall u | u in s.pcs && u != who ensures CommitOk(cfg, e.store, s.log + e.events, u, s.pcs[u]) {
      OthersStayCommitted(cfg, s, who, e, u);
    }
  }

  lemma StepExplained(cfg: Config, s: State, l: Label, s': State) returns (e: Effect)
    requires Inv(s) && Step(cfg, s, l, s') && !l.Tick?
    ensures e == EffectOf(cfg, s, l) && s' == After(s, l.who, e) && Explained(cfg, s, l.who, e)
  {
    e := StepEffect(cfg, s, l, s');
    EventOrigin(cfg, s, l);
    EffectCommitOrigin(cfg, s, l);
    CarriedOrigin(cfg, s, l);
    FinishOrigin(cfg, s, l);
  }

  lemma CommitInvStep(cfg: Config, s: State, l: Label, s': State)
    requires CommitInv(cfg, s) && Step(cfg, s, l, s') && Timely(s, s')
    ensures CommitInv(cfg, s')
  {
    if l.Tick? {
      TickKeepsInv(s, l.now);
    } else {
      var e := StepExplained(cfg, s, l, s');
      EffectKeepsCommits(cfg, s, l.who, e);
    }
  }

  lemma {:induction false} TimelyRunKeepsInv(cfg: Config, r: Trace, i: nat)
    requires IsTimelyRun(cfg, r) && i < |r.states|
    ensures CommitInv(cfg, r.states[i])
  {
    if i > 0 {
      TimelyRunKeepsInv(cfg, r, i - 1);
      assert StepAt(cfg, r, i - 1);
      assert TimelyAt(r, i - 1);
      CommitInvStep(cfg, r.states[i - 1], r.labels[i - 1], r.states[i]);
    }
  }

  // ---------- the theorems ----------

  /**
   Two-phase writes commit: after the status swap of a claim or a completion, the Get that
   follows reads exactly what the swap wrote (up to a push), and the Update after it does
   not conflict, whatever the other threads did in between.
   */
  lemma TwoPhaseWritesCommit(cfg: Config, r: Trace, i: nat, who: Tid)
    requires IsTimelyRun(cfg, r) && i < |r.states|
    ensures var st, pc := r.states[i].store, PcOf(r.states[i], who);
      && (pc.DqRead? || pc.CmRead? ==>
            Get(st, pc.wrote.adId).Ok? && SameButPriority(Get(st, pc.wrote.adId).value, pc.wrote))
      && (pc.DqWrite? ==> SameButPriority(pc.base, pc.wrote) && UpdateError(st, pc.base.ClaimedBy(who.instanceId)) == None)
      && (pc.CmWrite? ==> SameButPriority(pc.base, pc.wrote) && UpdateError(st, pc.base.(analysis := Some(pc.analysis))) == None)
  {
    TimelyRunKeepsInv(cfg, r, i);
    var s := r.states[i];
    if who in s.pcs {
      assert CommitOk(cfg, s.store, s.log, who, s.pcs[who]);
      assert PcOk(s.store, s.clock, s.pcs[who]);
    }
  }

  /** An ad is tried at most maxAttempts times, and is never queued with its attempts used up. */
  lemma AttemptsAreBounded(cfg: Config, r: Trace, i: nat, id: string)
    requires IsTimelyRun(cfg, r) && i < |r.states| && id in r.states[i].store
    ensures var ad := r.states[i].store[id];
      && ad.attempts == Deliveries(r.states[i].log, id) <= cfg.maxAttempts
      && (ad.status == Queued ==> ad.attempts < cfg.maxAttempts)
  {
    TimelyRunKeepsInv(cfg, r, i);
    RunAttemptsAreDeliveries(cfg, r, i, id);
  }
}
