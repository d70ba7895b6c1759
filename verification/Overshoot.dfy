/**
 Exactly which runs keep the queue within its capacity, and that the bound on the overshoot
 is the best there is (internal/processor/queue.go, Enqueue).
 */
module Overshoot {
  import opened Models
  import opened Store
  import opened Lifecycle
  import opened Protocol
  import opened Refinement
  import opened Runs
  import opened Capacity

  // ---------- exactly when the capacity holds ----------

  /** This step puts an ad into the queue, by a submission or by a requeue. */
  predicate Enters(s: State, s': State) {
    |s'.log| > |s.log| && (s'.log[|s'.log| - 1].Enqueued? || s'.log[|s'.log| - 1].Requeued?)
  }

  ghost predicate IsWithin(cfg: Config, st: Ads) {
    |IdsWith(st, Queued)| <= cfg.maxCapacity
  }

  ghost predicate IsWithinAt(cfg: Config, r: Trace, i: nat)
    requires i < |r.states|
  {
    IsWithin(cfg, r.states[i].store)
  }

  /** The capacity check of Enqueue, made once more at the write that enters the queue. */
  ghost predicate EntersBelow(cfg: Config, s: State, s': State) {
    Enters(s, s') ==> |IdsWith(s.store, Queued)| < cfg.maxCapacity
  }

  ghost predicate EntersBelowAt(cfg: Config, r: Trace, i: nat)
    requires i + 1 < |r.states|
  {
    EntersBelow(cfg, r.states[i], r.states[i + 1])
  }

  lemma QueuedCount(st: Ads, e: Event)
    requires Enabled(st, e)
    ensures e.Enqueued? || e.Requeued? ==> |IdsWith(Apply(st, e), Queued)| == |IdsWith(st, Queued)| + 1
    ensures !e.Enqueued? && !e.Requeued? ==> |IdsWith(Apply(st, e), Queued)| <= |IdsWith(st, Queued)|
  {
    QueuedAfter(st, e);
  }

  lemma WithinStepIff(cfg: Config, s: State, l: Label, s': State)
    requires Inv(s) && Step(cfg, s, l, s') && IsWithin(cfg, s.store)
    ensures IsWithin(cfg, s'.store) <==> EntersBelow(cfg, s, s')
  {
    StepRefines(cfg, s, l, s');
    if s'.log != s.log {
      var e :| Enabled(s.store, e) && s'.log == s.log + [e] && s'.store == Apply(s.store, e);
      QueuedCount(s.store, e);
    }
  }

  lemma {:induction false} WithinUpTo(cfg: Config, r: Trace, i: nat)
    requires IsRun(cfg, r) && i < |r.states| && cfg.maxCapacity > 0
    requires forall k: nat | k < |r.labels| :: EntersBelowAt(cfg, r, k)
    ensures IsWithinAt(cfg, r, i)
  {
    if i == 0 {
      assert IdsWith(r.states[0].store, Queued) == {};
    } else {
      WithinUpTo(cfg, r, i - 1);
      assert StepAt(cfg, r, i - 1) && EntersBelowAt(cfg, r, i - 1);
      RunKeepsInv(cfg, r, i - 1);
      WithinStepIff(cfg, r.states[i - 1], r.labels[i - 1], r.states[i]);
    }
  }

  /**
   In every run: the queue keeps to its capacity at all times if and only if every write
   that enters it, a requeue included, is made while the queue is below capacity.
   */
  lemma CapacityHoldsExactlyWhenEntriesFit(cfg: Config, r: Trace)
    requires IsRun(cfg, r) && cfg.maxCapacity > 0
    ensures (forall i: nat | i < |r.states| :: IsWithinAt(cfg, r, i)) <==>
            (forall i: nat | i < |r.labels| :: EntersBelowAt(cfg, r, i))
  {
    if forall i: nat | i < |r.states| :: IsWithinAt(cfg, r, i) {
      forall i: nat | i < |r.labels| ensures EntersBelowAt(cfg, r, i) {
        assert IsWithinAt(cfg, r, i) && IsWithinAt(cfg, r, i + 1) && StepAt(cfg, r, i);
        RunKeepsInv(cfg, r, i);
        WithinStepIff(cfg, r.states[i], r.labels[i], r.states[i + 1]);
      }
    }
    if forall i: nat | i < |r.labels| :: EntersBelowAt(cfg, r, i) {
      forall i: nat | i < |r.states| ensures IsWithinAt(cfg, r, i) {
        WithinUpTo(cfg, r, i);
      }
    }
  }

  // ---------- the overshoot is reached ----------

  function Name(i: nat): string {
    seq(i + 1, _ => 'a')
  }

  function Submitter(i: nat): Tid {
    Tid("instance", i, 0)
  }

  const SUBMISSION := AdSubmission("", "", "", [], [], "", 0, 1)

  function Sent(i: nat): Record {
    NewRecord(SUBMISSION, 0).(adId := Name(i))
  }

  lemma NamesDiffer(i: nat, j: nat)
    requires i != j
    ensures Name(i) != Name(j)
  {
    assert |Name(i)| != |Name(j)|;
  }

  function Racers(lo: nat, hi: nat): set<Tid> {
    set i | lo <= i < hi :: Submitter(i)
  }

  lemma {:induction false} RacersCount(lo: nat, hi: nat)
    requires lo <= hi
    ensures |Racers(lo, hi)| == hi - lo
    decreases hi
  {
    if lo < hi {
      RacersCount(lo, hi - 1);
      assert Racers(lo, hi) == Racers(lo, hi - 1) + {Submitter(hi - 1)};
    } else {
      assert Racers(lo, hi) == {};
    }
  }

  lemma RacersGrow(lo: nat, hi: nat)
    requires lo <= hi
    ensures Submitter(hi) !in Racers(lo, hi) && Racers(lo, hi + 1) == Racers(lo, hi) + {Submitter(hi)}
  {
  }

  lemma RacersShrink(lo: nat, hi: nat)
    requires lo < hi
    ensures Submitter(lo) in Racers(lo, hi) && Racers(lo, hi) - {Submitter(lo)} == Racers(lo + 1, hi)
  {
  }

  /** Submitters below lo have their ad in the queue; those below hi are past the check; the others have not begun. */
  ghost predicate Racing(cfg: Config, r: Trace, k: nat, lo: nat, hi: nat) {
    && IsRun(cfg, r) && RacersAtMost(r, k) && cfg.Valid() && lo <= hi <= lo + k
    && RacingState(Last(r), lo, hi)
  }

  ghost predicate RacingState(s: State, lo: nat, hi: nat) {
    RacingCounts(s, lo, hi) && RacingThreads(s, lo, hi)
  }

  ghost predicate RacingCounts(s: State, lo: nat, hi: nat) {
    && s.clock == 0 && Requeues(s.log) == 0
    && |IdsWith(s.store, Queued)| == lo && PastCheck(s.pcs) == Racers(lo, hi)
  }

  ghost predicate RacingThreads(s: State, lo: nat, hi: nat) {
    && (forall i: nat | i >= hi :: Name(i) !in s.store && Submitter(i) !in s.pcs)
    && (forall i: nat | lo <= i < hi ::
          && Submitter(i) in s.pcs && s.pcs[Submitter(i)] == EnqStamp(Sent(i))
          && Name(i) in s.store && s.store[Name(i)] == Sent(i))
  }

  /** One more step, with at most k racers after it. */
  lemma ExtendRace(cfg: Config, r: Trace, k: nat, l: Label) returns (r': Trace)
    requires IsRun(cfg, r) && RacersAtMost(r, k) && cfg.Valid() && Allowed(Last(r), l)
    requires |PastCheck(Do(cfg, Last(r), l).pcs)| <= k
    ensures IsRun(cfg, r') && RacersAtMost(r', k) && Last(r') == Do(cfg, Last(r), l)
  {
    r' := Extend(cfg, r, l);
    forall j: nat | j < |r'.states| ensures RacersAt(r', j, k) {
      if j < |r.states| {
        assert RacersAt(r, j, k);
      }
    }
  }

  lemma Quiet(log: Log, events: seq<Event>)
    requires |events| <= 1 && (events != [] ==> !events[0].Requeued?)
    ensures Requeues(log + events) == Requeues(log)
  {
    if events == [] {
      assert log + events == log;
    } else {
      assert events == [events[0]];
      RequeuesExtend(log, events[0]);
    }
  }

  lemma SavedKeepsQueued(st: Ads, ad: Record)
    requires ad.adId !in st && ad.status == Submitted
    ensures IdsWith(st[ad.adId := ad], Queued) == IdsWith(st, Queued)
  {
  }

  /** The state once submitter i has saved its ad. */
  function WithSaved(s: State, i: nat): State {
    After(s, Submitter(i), Effect(s.store[Name(i) := Sent(i)], EnqCheck(Sent(i)), [Saved(Sent(i))]))
  }

  lemma SavedPast(s: State, lo: nat, hi: nat)
    requires RacingCounts(s, lo, hi) && lo <= hi
    ensures PastCheck(WithSaved(s, hi).pcs) == Racers(lo, hi)
  {
    RacersGrow(lo, hi);
    PastCheckAfter(s.pcs, Submitter(hi), EnqCheck(Sent(hi)));
  }

  lemma SavedState(s: State, lo: nat, hi: nat)
    requires RacingState(s, lo, hi) && lo <= hi
    ensures Requeues(WithSaved(s, hi).log) == 0 && IdsWith(WithSaved(s, hi).store, Queued) == IdsWith(s.store, Queued)
    ensures PastCheck(WithSaved(s, hi).pcs) == Racers(lo, hi)
  {
    SavedPast(s, lo, hi);
    SavedKeepsQueued(s.store, Sent(hi));
    Quiet(s.log, [Saved(Sent(hi))]);
  }

  lemma Save(cfg: Config, r: Trace, k: nat, lo: nat, hi: nat) returns (r': Trace)
    requires Racing(cfg, r, k, lo, hi)
    ensures IsRun(cfg, r') && RacersAtMost(r', k) && Last(r') == WithSaved(Last(r), hi)
  {
    SavedState(Last(r), lo, hi);
    RacersCount(lo, hi);
    r' := ExtendRace(cfg, r, k, Submit(Submitter(hi), Name(hi), SUBMISSION, 0));
  }

  /** The state once it has passed the check. */
  function WithAdmitted(s: State, i: nat): State {
    After(WithSaved(s, i), Submitter(i), Silent(WithSaved(s, i).store, EnqStamp(Sent(i))))
  }

  lemma AdmittedPast(s: State, lo: nat, hi: nat)
    requires RacingState(s, lo, hi) && lo <= hi
    ensures PastCheck(WithAdmitted(s, hi).pcs) == Racers(lo, hi + 1)
    ensures |Racers(lo, hi + 1)| == hi + 1 - lo
  {
    SavedState(s, lo, hi);
    RacersCount(lo, hi + 1);
    RacersGrow(lo, hi);
    PastCheckAfter(WithSaved(s, hi).pcs, Submitter(hi), EnqStamp(Sent(hi)));
  }

  lemma AdmittedThreads(s: State, lo: nat, hi: nat)
    requires RacingThreads(s, lo, hi) && lo <= hi
    ensures RacingThreads(WithAdmitted(s, hi), lo, hi + 1)
  {
    forall i: nat | i != hi ensures Name(i) != Name(hi) {
      NamesDiffer(i, hi);
    }
  }

  lemma AdmittedState(s: State, lo: nat, hi: nat)
    requires RacingState(s, lo, hi) && lo <= hi
    ensures RacingState(WithAdmitted(s, hi), lo, hi + 1)
  {
    SavedState(s, lo, hi);
    AdmittedPast(s, lo, hi);
    AdmittedThreads(s, lo, hi);
    assert WithAdmitted(s, hi).log == WithSaved(s, hi).log + [] == WithSaved(s, hi).log;
  }

  /** While the queue is below capacity, the next submitter saves its ad and passes the check. */
  lemma Admit(cfg: Config, r: Trace, k: nat, lo: nat, hi: nat) returns (r': Trace)
    requires Racing(cfg, r, k, lo, hi) && hi - lo < k && lo < cfg.maxCapacity
    ensures Racing(cfg, r', k, lo, hi + 1)
  {
    var saved := Save(cfg, r, k, lo, hi);
    SavedState(Last(r), lo, hi);
    AdmittedPast(Last(r), lo, hi);
    AdmittedState(Last(r), lo, hi);
    r' := ExtendRace(cfg, saved, k, Run(Submitter(hi), false));
  }

  // ---------- entering ----------

  function Entered(i: nat): Record {
    NextVersion(Sent(i).WithStatus(Queued, 0))
  }

  /** The state once submitter i has read the queue time. */
  function WithStamp(s: State, i: nat): State {
    After(s, Submitter(i), Silent(s.store, EnqUpdate(Sent(i), 0)))
  }

  /** The state once its ad is in the queue. */
  function WithEntered(s: State, i: nat): State {
    After(WithStamp(s, i), Submitter(i),
          Effect(s.store[Name(i) := Entered(i)], Pushing(Name(i), 1, Idle), [Enqueued(Name(i), 0)]))
  }

  lemma StampedPast(s: State, lo: nat, hi: nat)
    requires RacingState(s, lo, hi) && lo < hi
    ensures PastCheck(WithStamp(s, lo).pcs) == Racers(lo, hi)
  {
    PastCheckAfter(s.pcs, Submitter(lo), EnqUpdate(Sent(lo), 0));
    RacersShrink(lo, hi);
  }

  lemma EnteredPast(s: State, lo: nat, hi: nat)
    requires RacingState(s, lo, hi) && lo < hi
    ensures PastCheck(WithEntered(s, lo).pcs) == Racers(lo + 1, hi)
  {
    StampedPast(s, lo, hi);
    PastCheckAfter(WithStamp(s, lo).pcs, Submitter(lo), Pushing(Name(lo), 1, Idle));
    RacersShrink(lo, hi);
  }

  lemma EnteredQueue(st: Ads, i: nat)
    requires Name(i) in st && st[Name(i)] == Sent(i)
    ensures |IdsWith(st[Name(i) := Entered(i)], Queued)| == |IdsWith(st, Queued)| + 1
  {
    assert IdsWith(st[Name(i) := Entered(i)], Queued) == IdsWith(st, Queued) + {Name(i)};
  }

  lemma EnteredThreads(s: State, lo: nat, hi: nat)
    requires RacingThreads(s, lo, hi) && lo < hi
    ensures RacingThreads(WithEntered(s, lo), lo + 1, hi)
  {
    forall i: nat | i != lo ensures Name(i) != Name(lo) {
      NamesDiffer(i, lo);
    }
  }

  lemma EnteredState(s: State, lo: nat, hi: nat)
    requires RacingState(s, lo, hi) && lo < hi
    ensures RacingState(WithEntered(s, lo), lo + 1, hi)
  {
    EnteredPast(s, lo, hi);
    EnteredQueue(s.store, lo);
    EnteredThreads(s, lo, hi);
    var entered := [Enqueued(Name(lo), 0)];
    assert WithEntered(s, lo).log == s.log + [] + entered == s.log + entered;
    Quiet(s.log, entered);
  }

  lemma StampStep(cfg: Config, s: State, lo: nat, hi: nat)
    requires cfg.Valid() && RacingState(s, lo, hi) && lo < hi
    ensures Allowed(s, Run(Submitter(lo), false)) && Do(cfg, s, Run(Submitter(lo), false)) == WithStamp(s, lo)
  {
  }

  lemma EnterEffect(cfg: Config, st: Ads, i: nat)
    requires Name(i) in st && st[Name(i)] == Sent(i)
    ensures EnqueueStep(cfg, st, 0, EnqUpdate(Sent(i), 0)) ==
            Effect(st[Name(i) := Entered(i)], Pushing(Name(i), 1, Idle), [Enqueued(Name(i), 0)])
  {
  }

  lemma EnterStep(cfg: Config, s: State, lo: nat, hi: nat)
    requires cfg.Valid() && RacingState(s, lo, hi) && lo < hi
    ensures Allowed(WithStamp(s, lo), Run(Submitter(lo), false))
    ensures Do(cfg, WithStamp(s, lo), Run(Submitter(lo), false)) == WithEntered(s, lo)
  {
    EnterEffect(cfg, s.store, lo);
  }

  lemma Stamp(cfg: Config, r: Trace, k: nat, lo: nat, hi: nat) returns (r': Trace)
    requires Racing(cfg, r, k, lo, hi) && lo < hi
    ensures IsRun(cfg, r') && RacersAtMost(r', k) && Last(r') == WithStamp(Last(r), lo)
  {
    StampStep(cfg, Last(r), lo, hi);
    StampedPast(Last(r), lo, hi);
    RacersCount(lo, hi);
    r' := ExtendRace(cfg, r, k, Run(Submitter(lo), false));
  }

  /** The first of those past the check enters the queue, however full it is. */
  lemma Enter(cfg: Config, r: Trace, k: nat, lo: nat, hi: nat) returns (r': Trace)
    requires Racing(cfg, r, k, lo, hi) && lo < hi
    ensures Racing(cfg, r', k, lo + 1, hi)
  {
    var s := Last(r);
    r' := Stamp(cfg, r, k, lo, hi);
    EnterStep(cfg, s, lo, hi);
    EnteredPast(s, lo, hi);
    RacersCount(lo + 1, hi);
    r' := ExtendRace(cfg, r', k, Run(Submitter(lo), false));
    EnteredState(s, lo, hi);
  }

  // ---------- the run ----------

  lemma RaceStarts(cfg: Config, k: nat) returns (r: Trace)
    requires cfg.Valid()
    ensures Racing(cfg, r, k, 0, 0)
  {
    r := Trace([State(map[], map[], 0, multiset{}, [])], []);
    assert PastCheck(r.states[0].pcs) == {} == Racers(0, 0) && IdsWith(r.states[0].store, Queued) == {};
    assert forall j: nat | j < |r.states| :: RacersAt(r, j, k);
  }

  /** One after another, n submitters fill the queue. */
  lemma {:induction false} Fill(cfg: Config, k: nat, n: nat) returns (r: Trace)
    requires cfg.Valid() && k >= 1 && n <= cfg.maxCapacity
    ensures Racing(cfg, r, k, n, n)
  {
    if n == 0 {
      r := RaceStarts(cfg, k);
    } else {
      r := Fill(cfg, k, n - 1);
      r := Admit(cfg, r, k, n - 1, n - 1);
      r := Enter(cfg, r, k, n - 1, n);
    }
  }

  /** On a queue one below capacity, n more pass the check. */
  lemma {:induction false} Crowd(cfg: Config, k: nat, n: nat) returns (r: Trace)
    requires cfg.Valid() && cfg.maxCapacity > 0 && 1 <= k && n <= k
    ensures Racing(cfg, r, k, cfg.maxCapacity - 1, cfg.maxCapacity - 1 + n)
  {
    if n == 0 {
      r := Fill(cfg, k, cfg.maxCapacity - 1);
    } else {
      r := Crowd(cfg, k, n - 1);
      r := Admit(cfg, r, k, cfg.maxCapacity - 1, cfg.maxCapacity - 1 + n - 1);
    }
  }

  /** And all of them enter. */
  lemma {:induction false} Rush(cfg: Config, k: nat, n: nat) returns (r: Trace)
    requires cfg.Valid() && cfg.maxCapacity > 0 && 1 <= k && n <= k
    ensures Racing(cfg, r, k, cfg.maxCapacity - 1 + n, cfg.maxCapacity - 1 + k)
  {
    if n == 0 {
      r := Crowd(cfg, k, k);
    } else {
      r := Rush(cfg, k, n - 1);
      r := Enter(cfg, r, k, cfg.maxCapacity - 1 + n - 1, cfg.maxCapacity - 1 + k);
    }
  }

  /**
   The bound on the overshoot is reached: for every capacity and every number k of racing
   enqueues there is a run without any requeue that ends with maxCapacity - 1 + k queued ads.
   */
  lemma OvershootIsReached(cfg: Config, k: nat) returns (r: Trace)
    requires cfg.Valid() && cfg.maxCapacity > 0 && k >= 1
    ensures IsRun(cfg, r) && RacersAtMost(r, k) && Requeues(Last(r).log) == 0
    ensures |IdsWith(Last(r).store, Queued)| == cfg.maxCapacity - 1 + k
  {
    r := Rush(cfg, k, k);
  }
}
