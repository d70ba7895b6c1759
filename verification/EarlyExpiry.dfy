/**
 Expiry inside a claim, should the expiry guard ever come to hold: what happens when a
 processing ad counts as expired before the claim's second write, and exactly which runs
 keep the attempts bounded.  Module CodedExpiry is about the guard as it is.
 */
module EarlyExpiry {
  import opened Models
  import opened Store
  import opened Lifecycle
  import opened Protocol
  import opened Refinement
  import opened Runs
  import opened Commit

  // ---------- exactly when attempts stay bounded ----------

  /**
   A guard the claimant could test on the copy it fetched, before its Update: one more
   attempt is allowed, and if the ad is queued again, one more after that.
   */
  predicate HasRoom(cfg: Config, base: Record) {
    base.attempts + (if base.status == Queued then 1 else 0) < cfg.maxAttempts
  }

  /** If this step is a claim's second write and its version test passes, the guard holds. */
  ghost predicate ClaimFits(cfg: Config, s: State, l: Label) {
    l.Run? && PcOf(s, l.who).DqWrite? && UpdateError(s.store, PcOf(s, l.who).base).None? ==>
      HasRoom(cfg, PcOf(s, l.who).base)
  }

  ghost predicate ClaimFitsAt(cfg: Config, r: Trace, i: nat)
    requires i < |r.labels| < |r.states|
  {
    ClaimFits(cfg, r.states[i], r.labels[i])
  }

  ghost predicate BoundedAt(cfg: Config, r: Trace, i: nat)
    requires i < |r.states|
  {
    AttemptsBounded(cfg, r.states[i].store)
  }

  lemma BoundedStepIff(cfg: Config, s: State, l: Label, s': State)
    requires Inv(s) && Step(cfg, s, l, s') && AttemptsBounded(cfg, s.store)
    ensures AttemptsBounded(cfg, s'.store) <==> ClaimFits(cfg, s, l)
  {
    if !l.Tick? {
      var e := StepExplained(cfg, s, l, s');
      if PcOf(s, l.who).DqWrite? {
        DeliveryIff(cfg, s, l.who, e);
      } else {
        OtherStepsKeepBound(cfg, s, l.who, e);
      }
    }
  }

  lemma OtherStepsKeepBound(cfg: Config, s: State, who: Tid, e: Effect)
    requires cfg.Valid() && Explained(cfg, s, who, e) && AttemptsBounded(cfg, s.store) && !PcOf(s, who).DqWrite?
    ensures AttemptsBounded(cfg, e.store)
  {
    if e.events != [] {
      EventKeepsAttemptsBounded(cfg, s.store, e.events[0]);
    }
  }

  lemma DeliveryIff(cfg: Config, s: State, who: Tid, e: Effect)
    requires Inv(s) && AttemptsBounded(cfg, s.store)
    requires PcOf(s, who).DqWrite? && e == DequeueStep(s.store, who, PcOf(s, who), true)
    ensures AttemptsBounded(cfg, e.store) <==>
      (UpdateError(s.store, PcOf(s, who).base).None? ==> HasRoom(cfg, PcOf(s, who).base))
  {
    var base := PcOf(s, who).base;
    assert PcOk(s.store, s.clock, PcOf(s, who));
    if UpdateError(s.store, base).None? {
      var delivered := NextVersion(base.ClaimedBy(who.instanceId));
      assert e.store == s.store[base.adId := delivered];
      assert base.adId in e.store && e.store[base.adId] == delivered;
      assert forall id | id in e.store && id != base.adId :: e.store[id] == s.store[id];
    }
  }

  /**
   In every run, whatever expiry does: every ad keeps to its attempts at all times if and
   only if the guard holds of every copy that a claim's second write writes back.
   */
  lemma AttemptsBoundedExactlyWhenClaimsFit(cfg: Config, r: Trace)
    requires IsRun(cfg, r)
    ensures (forall i: nat | i < |r.states| :: BoundedAt(cfg, r, i)) <==>
            (forall i: nat | i < |r.labels| :: ClaimFitsAt(cfg, r, i))
  {
    if forall i: nat | i < |r.states| :: BoundedAt(cfg, r, i) {
      forall i: nat | i < |r.labels| ensures ClaimFitsAt(cfg, r, i) {
        assert BoundedAt(cfg, r, i) && BoundedAt(cfg, r, i + 1) && StepAt(cfg, r, i);
        RunKeepsInv(cfg, r, i);
        BoundedStepIff(cfg, r.states[i], r.labels[i], r.states[i + 1]);
      }
    }
    if forall i: nat | i < |r.labels| :: ClaimFitsAt(cfg, r, i) {
      forall i: nat | i < |r.states| ensures BoundedAt(cfg, r, i) {
        FittingClaimsKeepBound(cfg, r, i);
      }
    }
  }

  lemma {:induction false} FittingClaimsKeepBound(cfg: Config, r: Trace, i: nat)
    requires IsRun(cfg, r) && i < |r.states|
    requires forall k: nat | k < |r.labels| :: ClaimFitsAt(cfg, r, k)
    ensures BoundedAt(cfg, r, i)
  {
    if i > 0 {
      FittingClaimsKeepBound(cfg, r, i - 1);
      assert StepAt(cfg, r, i - 1) && ClaimFitsAt(cfg, r, i - 1);
      RunKeepsInv(cfg, r, i - 1);
      BoundedStepIff(cfg, r.states[i - 1], r.labels[i - 1], r.states[i]);
    }
  }

  // ---------- a run that breaks the bound ----------

  /** A run of one ad "a", told by where it has come to. */
  ghost predicate At(cfg: Config, r: Trace, ad: Record, mine: Pc, other: Pc) {
    && IsRun(cfg, r) && Last(r).clock == 0 && Last(r).store == map["a" := ad]
    && PcOf(Last(r), CLAIMANT) == mine && PcOf(Last(r), SWEEPER) == other
  }

  const CLAIMANT := Tid("instance", 0, 0)
  const SWEEPER := Tid("instance", 1, 0)

  const SUBMISSION := AdSubmission("", "", "", [], [], "", 0, 1)
  const ONCE := Config(0, 1, 0.0, 1)

  const SAVED := NewRecord(SUBMISSION, 0).(adId := "a")
  const QUEUED := NextVersion(SAVED.WithStatus(Queued, 0))
  const CLAIMED := Swapped(QUEUED, Processing, 0)
  const RETURNED := Swapped(CLAIMED, Queued, 0)
  const DELIVERED := NextVersion(RETURNED.ClaimedBy("instance"))

  lemma EnqueuedRun() returns (r: Trace)
    ensures At(ONCE, r, QUEUED, Idle, Idle)
  {
    var s := State(map[], map[], 0, multiset{}, []);
    r := Trace([s], []);
    r := Extend(ONCE, r, Submit(CLAIMANT, "a", SUBMISSION, 0));
    assert At(ONCE, r, SAVED, EnqCheck(SAVED), Idle);
    r := Extend(ONCE, r, Run(CLAIMANT, false));
    assert At(ONCE, r, SAVED, EnqStamp(SAVED), Idle);
    r := Extend(ONCE, r, Run(CLAIMANT, false));
    assert At(ONCE, r, SAVED, EnqUpdate(SAVED, 0), Idle);
    r := Extend(ONCE, r, Run(CLAIMANT, false));
    assert At(ONCE, r, QUEUED, Pushing("a", 1, Idle), Idle);
    r := Extend(ONCE, r, Run(CLAIMANT, false));
  }

  lemma ClaimedRun() returns (r: Trace)
    ensures At(ONCE, r, CLAIMED, DqRead(CLAIMED), Idle)
  {
    r := EnqueuedRun();
    r := Extend(ONCE, r, StartDequeue(CLAIMANT));
    r := Extend(ONCE, r, Pop(CLAIMANT, Some("a")));
    assert At(ONCE, r, QUEUED, DqGet("a"), Idle);
    r := Extend(ONCE, r, Run(CLAIMANT, false));
    assert At(ONCE, r, QUEUED, DqLock(true, "a", 2), Idle);
    r := Extend(ONCE, r, Run(CLAIMANT, true));
    r := Extend(ONCE, r, Run(CLAIMANT, true));
  }

  lemma ListedRun() returns (r: Trace)
    ensures At(ONCE, r, CLAIMED, DqRead(CLAIMED), RqLoop([CLAIMED]))
  {
    r := ClaimedRun();
    assert Page([CLAIMED], PAGE_SIZE, 0) == [CLAIMED];
    r := Extend(ONCE, r, StartRequeue(SWEEPER, [CLAIMED]));
  }

  lemma SweptRun() returns (r: Trace)
    ensures At(ONCE, r, RETURNED, DqRead(CLAIMED), RqRead("a", []))
  {
    r := ListedRun();
    assert [CLAIMED][1..] == [];
    r := Extend(ONCE, r, Run(SWEEPER, true));
  }

  lemma ReadRun() returns (r: Trace)
    ensures At(ONCE, r, RETURNED, DqWrite(CLAIMED, RETURNED), RqRead("a", []))
  {
    r := SweptRun();
    r := Extend(ONCE, r, Run(CLAIMANT, false));
  }

  /**
   A run with one attempt allowed, in which an ad counts as expired although its guard is
   never true in the code as it is: the sweep returns an ad between the two writes
   of its claim: the claimant's Get reads the returned record, not what its swap wrote, its
   Update succeeds all the same, and the ad stays queued with its one attempt used up.
   */
  lemma ExpiryInsideAClaimBreaksTheBound() returns (r: Trace, i: nat)
    ensures IsRun(ONCE, r) && i + 1 < |r.states|
    ensures PcOf(r.states[i], CLAIMANT) == DqWrite(CLAIMED, RETURNED) && !SameButPriority(CLAIMED, RETURNED)
    ensures PcOf(r.states[i + 1], CLAIMANT) == Working(DELIVERED)
    ensures r.states[i + 1].store == map["a" := DELIVERED]
    ensures DELIVERED.status == Queued && DELIVERED.attempts == ONCE.maxAttempts
  {
    r := ReadRun();
    i := |r.states| - 1;
    r := Extend(ONCE, r, Run(CLAIMANT, false));
  }
}
