/**
 The expiry pass with the guard as it is coded (internal/processor/queue.go:366), among all
 the other threads.  Nothing sets the instant the guard tests, so no ad ever returns to the
 queue, and what the other modules prove of runs whose expiry strikes in time holds of all.
 */
module CodedExpiry {
  import opened Models
  import opened Store
  import opened Lifecycle
  import opened Protocol
  import opened Refinement
  import opened Runs
  import opened Fencing
  import opened Commit
  import opened Capacity

  /** This step of the expiry pass, if it is one, goes by the guard at some cutoff. */
  ghost predicate Coded(s: State, l: Label) {
    l.Run? && PcOf(s, l.who).RqLoop? && PcOf(s, l.who).todo != [] ==>
      exists cutoff: int :: l.flag == PcOf(s, l.who).todo[0].HasExpired(cutoff)
  }

  ghost predicate CodedAt(r: Trace, i: nat)
    requires i < |r.labels| < |r.states|
  {
    Coded(r.states[i], r.labels[i])
  }

  ghost predicate IsCodedRun(cfg: Config, r: Trace) {
    IsRun(cfg, r) && forall i: nat | i < |r.labels| :: CodedAt(r, i)
  }

  predicate GivesBack(e: Event) {
    e.Requeued? || e.Abandoned?
  }

  /** Only the expiry loop gives an ad back, and only when told that the ad has expired. */
  lemma GivenBackByTheLoop(cfg: Config, s: State, l: Label)
    requires cfg.Valid() && Allowed(s, l) && !l.Tick?
    ensures var e := EffectOf(cfg, s, l);
      e.events != [] && GivesBack(e.events[0]) ==>
        l.Run? && l.flag && PcOf(s, l.who).RqLoop? && PcOf(s, l.who).todo != []
  {
  }

  /** No listed ad has expired: every copy comes from a consistent store. */
  lemma ListedNeverExpired(s: State, who: Tid, cutoff: int)
    requires Inv(s) && who in s.pcs && s.pcs[who].RqLoop? && s.pcs[who].todo != []
    ensures !s.pcs[who].todo[0].HasExpired(cutoff)
  {
    assert PcOk(s.store, s.clock, s.pcs[who]);
    assert CopyOf(s.store, s.clock, s.pcs[who].todo[0]);
  }

  /** A coded step gives no ad back. */
  lemma NothingGivenBack(cfg: Config, s: State, l: Label)
    requires Inv(s) && cfg.Valid() && Allowed(s, l) && !l.Tick? && Coded(s, l)
    ensures var e := EffectOf(cfg, s, l); e.events != [] ==> !GivesBack(e.events[0])
  {
    GivenBackByTheLoop(cfg, s, l);
    if l.Run? && PcOf(s, l.who).RqLoop? && PcOf(s, l.who).todo != [] {
      var cutoff: int :| l.flag == PcOf(s, l.who).todo[0].HasExpired(cutoff);
      ListedNeverExpired(s, l.who, cutoff);
    }
  }

  lemma CodedStep(cfg: Config, r: Trace, i: nat)
    requires IsCodedRun(cfg, r) && i < |r.labels|
    ensures TimelyAt(r, i)
    ensures forall e | e in r.states[i + 1].log && GivesBack(e) :: e in r.states[i].log
  {
    StepOfRun(cfg, r, i);
    assert CodedAt(r, i);
    var s, l, s' := r.states[i], r.labels[i], r.states[i + 1];
    if !l.Tick? {
      var e := StepEffect(cfg, s, l, s');
      NothingGivenBack(cfg, s, l);
      assert s'.log == s.log + e.events;
      forall event | s'.log == s.log + [event] ensures !GivesBack(event) {
        assert s'.log[|s.log|] == event == e.events[0];
      }
    }
  }

  /** Every run of the code as it is meets the condition under which two-phase writes commit. */
  lemma CodedRunsAreTimely(cfg: Config, r: Trace)
    requires IsCodedRun(cfg, r)
    ensures IsTimelyRun(cfg, r)
  {
    forall i: nat | i < |r.labels| ensures TimelyAt(r, i) {
      CodedStep(cfg, r, i);
    }
  }

  /** Two-phase writes commit in every run of the code as it is. */
  lemma CodedWritesCommit(cfg: Config, r: Trace, i: nat, who: Tid)
    requires IsCodedRun(cfg, r) && i < |r.states|
    ensures var st, pc := r.states[i].store, PcOf(r.states[i], who);
      && (pc.DqRead? || pc.CmRead? ==>
            Get(st, pc.wrote.adId).Ok? && SameButPriority(Get(st, pc.wrote.adId).value, pc.wrote))
      && (pc.DqWrite? ==> SameButPriority(pc.base, pc.wrote) && UpdateError(st, pc.base.ClaimedBy(who.instanceId)) == None)
      && (pc.CmWrite? ==> SameButPriority(pc.base, pc.wrote) && UpdateError(st, pc.base.(analysis := Some(pc.analysis))) == None)
  {
    CodedRunsAreTimely(cfg, r);
    TwoPhaseWritesCommit(cfg, r, i, who);
  }

  /** No ad is ever returned to the queue or given up. */
  lemma {:induction false} NoAdReturns(cfg: Config, r: Trace, i: nat)
    requires IsCodedRun(cfg, r) && i < |r.states|
    ensures forall e | e in r.states[i].log :: !GivesBack(e)
  {
    if i > 0 {
      NoAdReturns(cfg, r, i - 1);
      CodedStep(cfg, r, i - 1);
    }
  }

  lemma NoRequeueBetween(log: Log, i: nat, j: nat, id: string)
    requires forall e | e in log :: !GivesBack(e)
    ensures !RequeuedBetween(log, i, j, id)
  {
    if j <= |log| {
      forall k | i < k < j ensures log[k] != Requeued(id) {
        assert log[k] in log;
      }
    }
  }

  /** So an ad is claimed at most once. */
  lemma OneClaimPerAd(cfg: Config, r: Trace, n: nat, i: nat, j: nat, id: string)
    requires IsCodedRun(cfg, r) && n < |r.states|
    requires IsClaim(r.states[n].log, i, id) && IsClaim(r.states[n].log, j, id)
    ensures i == j
  {
    NoAdReturns(cfg, r, n);
    NoRequeueBetween(r.states[n].log, i, j, id);
    NoRequeueBetween(r.states[n].log, j, i, id);
    if i < j {
      RunClaimsAndFinishes(cfg, r, n, i, j, id);
    } else if j < i {
      RunClaimsAndFinishes(cfg, r, n, j, i, id);
    }
  }

  // ---------- deliveries ----------

  /** log[i] is the claim that the delivery log[k] completes: nothing was written to the ad between. */
  ghost predicate Completes(log: Log, i: nat, k: nat) {
    i < k < |log| && log[k].Delivered? && log[i] == Claimed(log[k].who, log[k].id)
    && QuietSince(log[..k], i, log[k].id)
  }

  ghost predicate FollowsClaim(log: Log, k: nat) {
    k < |log| && log[k].Delivered? ==> exists i: nat :: Completes(log, i, k)
  }

  lemma FollowsStays(log: Log, e: Event, k: nat)
    requires k < |log| && FollowsClaim(log, k)
    ensures FollowsClaim(log + [e], k)
  {
    if log[k].Delivered? {
      var i: nat :| Completes(log, i, k);
      assert (log + [e])[..k] == log[..k];
      assert Completes(log + [e], i, k);
    }
  }

  /** A delivery is the second write of a claim that is still the latest versioned one. */
  lemma NewDeliveryFollows(cfg: Config, s: State, who: Tid, e: Effect)
    requires CommitInv(cfg, s) && Explained(cfg, s, who, e) && e.events != []
    ensures FollowsClaim(s.log + e.events, |s.log|)
  {
    var log := s.log + e.events;
    if e.events[0].Delivered? {
      var id := e.events[0].id;
      assert CommitOk(cfg, s.store, s.log, who, PcOf(s, who));
      var i: nat :| i < |s.log| && s.log[i] == Claimed(who, id) && QuietSince(s.log, i, id);
      assert log[..|s.log|] == s.log;
      assert Completes(log, i, |s.log|);
    }
  }

  /** In timely runs every delivery directly follows the claim of its own thread. */
  lemma {:induction false} DeliveriesFollowClaims(cfg: Config, r: Trace, n: nat, k: nat)
    requires IsTimelyRun(cfg, r) && n < |r.states|
    ensures FollowsClaim(r.states[n].log, k)
  {
    if n > 0 && k < |r.states[n].log| {
      var s, l, s' := r.states[n - 1], r.labels[n - 1], r.states[n];
      DeliveriesFollowClaims(cfg, r, n - 1, k);
      TimelyRunKeepsInv(cfg, r, n - 1);
      StepOfRun(cfg, r, n - 1);
      if !l.Tick? {
        var e := StepExplained(cfg, s, l, s');
        LogGrows(cfg, s, l.who, e, k);
      }
    }
  }

  lemma LogGrows(cfg: Config, s: State, who: Tid, e: Effect, k: nat)
    requires CommitInv(cfg, s) && Explained(cfg, s, who, e) && k < |s.log + e.events| && FollowsClaim(s.log, k)
    ensures FollowsClaim(s.log + e.events, k)
  {
    if e.events == [] {
      assert s.log + e.events == s.log;
    } else if k < |s.log| {
      assert e.events == [e.events[0]];
      FollowsStays(s.log, e.events[0], k);
    } else {
      NewDeliveryFollows(cfg, s, who, e);
    }
  }

  ghost predicate IsDeliveryOf(log: Log, k: nat, id: string) {
    k < |log| && log[k].Delivered? && log[k].id == id
  }

  /** A claim is completed by the first delivery after it only. */
  lemma ClaimIsSpent(log: Log, i: nat, k: nat, m: nat)
    requires Completes(log, i, k) && k < m
    ensures !Completes(log, i, m)
  {
    if m < |log| {
      assert log[..m][k] == log[k];
    }
  }

  lemma OneDeliveryPerAd(cfg: Config, r: Trace, n: nat, k: nat, m: nat, id: string)
    requires IsCodedRun(cfg, r) && n < |r.states| && k < m
    ensures var log := r.states[n].log; !(IsDeliveryOf(log, k, id) && IsDeliveryOf(log, m, id))
  {
    var log := r.states[n].log;
    if IsDeliveryOf(log, k, id) && IsDeliveryOf(log, m, id) {
      CodedRunsAreTimely(cfg, r);
      DeliveriesFollowClaims(cfg, r, n, k);
      DeliveriesFollowClaims(cfg, r, n, m);
      var i: nat :| Completes(log, i, k);
      var j: nat :| Completes(log, j, m);
      ClaimIsSpent(log, i, k, m);
      OneClaimPerAd(cfg, r, n, i, j, id);
      assert false;
    }
  }

  lemma {:induction false} CountOfOne(log: Log, id: string)
    requires forall k: nat, m: nat | k < m :: !(IsDeliveryOf(log, k, id) && IsDeliveryOf(log, m, id))
    ensures Deliveries(log, id) <= 1
    ensures Deliveries(log, id) == 1 ==> exists k: nat :: IsDeliveryOf(log, k, id)
    decreases |log|
  {
    if log != [] {
      var n := |log| - 1;
      forall k: nat, m: nat | k < m ensures !(IsDeliveryOf(log[..n], k, id) && IsDeliveryOf(log[..n], m, id)) {
        assert !(IsDeliveryOf(log, k, id) && IsDeliveryOf(log, m, id));
      }
      CountOfOne(log[..n], id);
      if Deliveries(log[..n], id) == 1 {
        var k: nat :| IsDeliveryOf(log[..n], k, id);
        assert IsDeliveryOf(log, k, id);
        assert !(IsDeliveryOf(log, k, id) && IsDeliveryOf(log, n, id));
      } else if IsDeliveryOf(log, n, id) {
        assert IsDeliveryOf(log, n, id);
      }
    }
  }

  /**
   As the code is, no ad is ever tried twice, whatever maxAttempts says, and the bound on
   attempts holds in every run.
   */
  lemma OneAttemptPerAd(cfg: Config, r: Trace, n: nat, id: string)
    requires IsCodedRun(cfg, r) && n < |r.states| && id in r.states[n].store
    ensures var ad := r.states[n].store[id];
      && ad.attempts == Deliveries(r.states[n].log, id) <= 1
      && ad.attempts <= cfg.maxAttempts
      && (ad.status == Queued ==> ad.attempts < cfg.maxAttempts)
  {
    CodedRunsAreTimely(cfg, r);
    AttemptsAreBounded(cfg, r, n, id);
    forall k: nat, m: nat | k < m
      ensures !(IsDeliveryOf(r.states[n].log, k, id) && IsDeliveryOf(r.states[n].log, m, id))
    {
      OneDeliveryPerAd(cfg, r, n, k, m, id);
    }
    CountOfOne(r.states[n].log, id);
  }

  // ---------- capacity ----------

  lemma {:induction false} NoRequeuesCounted(log: Log)
    requires forall e | e in log :: !GivesBack(e)
    ensures Requeues(log) == 0
  {
    if log != [] {
      assert log[|log| - 1] in log;
      NoRequeuesCounted(log[..|log| - 1]);
    }
  }

  /** Nothing comes back past the capacity check either: only racing enqueues can overshoot. */
  lemma CodedOvershoot(cfg: Config, r: Trace, k: nat, i: nat)
    requires IsCodedRun(cfg, r) && i < |r.states| && cfg.maxCapacity > 0 && RacersAtMost(r, k)
    ensures |IdsWith(r.states[i].store, Queued)| <= cfg.maxCapacity - 1 + k
  {
    NoAdReturns(cfg, r, i);
    NoRequeuesCounted(r.states[i].log);
    QueueOvershoot(cfg, r, k, i);
  }
}
