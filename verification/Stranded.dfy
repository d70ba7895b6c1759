/**
 What happens to an ad whose worker gives up on it, with the expiry guard as it is coded:
 nothing, for ever (internal/processor/worker.go, processLoop).
 */
module Stranded {
  import opened Models
  import opened Store
  import opened Lifecycle
  import opened Protocol
  import opened Refinement
  import opened Runs
  import opened Fencing
  import opened Commit
  import opened CodedExpiry

  /** This thread is half-way through claiming the ad. */
  predicate Claims(pc: Pc, id: string) {
    InClaimWindow(pc) && pc.wrote.adId == id
  }

  /** This thread works on a delivered copy of the ad. */
  predicate Carries(pc: Pc, id: string) {
    Carried(pc).Some? && Carried(pc).value.adId == id
  }

  /** The ad is processing, and nobody processes it. */
  ghost predicate IsStranded(s: State, id: string) {
    && id in s.store && s.store[id].status == Processing
    && forall t | t in s.pcs :: !Claims(s.pcs[t], id) && !Carries(s.pcs[t], id)
  }

  // ---------- a stranded ad stays stranded ----------

  /** Without expiry only the thread that carries an ad takes it out of processing. */
  lemma StaysProcessing(cfg: Config, s: State, who: Tid, e: Effect, id: string)
    requires Explained(cfg, s, who, e) && (e.events != [] ==> !GivesBack(e.events[0]))
    requires id in s.store && s.store[id].status == Processing
    ensures id in e.store
    ensures e.store[id].status == Processing || (Carries(PcOf(s, who), id) && e.pc.CmRead?)
  {
  }

  lemma StrandedStep(cfg: Config, s: State, who: Tid, e: Effect, id: string)
    requires Explained(cfg, s, who, e) && (e.events != [] ==> !GivesBack(e.events[0])) && IsStranded(s, id)
    ensures IsStranded(After(s, who, e), id)
  {
    StaysProcessing(cfg, s, who, e, id);
    assert !Claims(e.pc, id) && !Carries(e.pc, id);
  }

  lemma CodedEffect(cfg: Config, r: Trace, i: nat) returns (e: Effect)
    requires IsCodedRun(cfg, r) && i < |r.labels| && !r.labels[i].Tick?
    ensures Explained(cfg, r.states[i], r.labels[i].who, e) && (e.events != [] ==> !GivesBack(e.events[0]))
    ensures r.states[i + 1] == After(r.states[i], r.labels[i].who, e)
  {
    StepOfRun(cfg, r, i);
    assert CodedAt(r, i);
    e := StepExplained(cfg, r.states[i], r.labels[i], r.states[i + 1]);
    NothingGivenBack(cfg, r.states[i], r.labels[i]);
  }

  lemma {:induction false} StrandedForGood(cfg: Config, r: Trace, i: nat, j: nat, id: string)
    requires IsCodedRun(cfg, r) && i <= j < |r.states| && IsStranded(r.states[i], id)
    ensures IsStranded(r.states[j], id)
    decreases j - i
  {
    if i < j {
      StrandedForGood(cfg, r, i, j - 1, id);
      if r.labels[j - 1].Tick? {
        assert StepAt(cfg, r, j - 1);
      } else {
        var e := CodedEffect(cfg, r, j - 1);
        StrandedStep(cfg, r.states[j - 1], r.labels[j - 1].who, e, id);
      }
    }
  }

  // ---------- who carries an ad is alone with it ----------

  lemma DeliveryOfCarrier(cfg: Config, r: Trace, n: nat, t: Tid, id: string) returns (k: nat)
    requires IsCodedRun(cfg, r) && n < |r.states| && t in r.states[n].pcs && Carries(r.states[n].pcs[t], id)
    ensures IsDeliveryOf(r.states[n].log, k, id) && r.states[n].log[k].who == t
  {
    RunKeepsFenceInv(cfg, r, n);
    var s := r.states[n];
    var ad := Carried(s.pcs[t]).value;
    assert Holds(s.store, s.log, t, ad);
    k :| IsDelivery(s.log, k, t, ad.adId, ad.version)
      && (ad.adId in s.store && s.store[ad.adId].version == ad.version ==> QuietSince(s.log, k, ad.adId));
  }

  lemma CarriersAreOne(cfg: Config, r: Trace, n: nat, t: Tid, u: Tid, id: string)
    requires IsCodedRun(cfg, r) && n < |r.states| && t in r.states[n].pcs && u in r.states[n].pcs
    requires Carries(r.states[n].pcs[t], id) && Carries(r.states[n].pcs[u], id)
    ensures t == u
  {
    var k := DeliveryOfCarrier(cfg, r, n, t, id);
    var m := DeliveryOfCarrier(cfg, r, n, u, id);
    if k < m {
      OneDeliveryPerAd(cfg, r, n, k, m, id);
    } else if m < k {
      OneDeliveryPerAd(cfg, r, n, m, k, id);
    }
  }

  /** An ad once delivered is not being claimed: the one claim it ever gets is spent. */
  lemma DeliveredIsNotClaimed(cfg: Config, r: Trace, n: nat, k: nat, u: Tid, id: string)
    requires IsCodedRun(cfg, r) && n < |r.states| && u in r.states[n].pcs && IsDeliveryOf(r.states[n].log, k, id)
    ensures !Claims(r.states[n].pcs[u], id)
  {
    CodedRunsAreTimely(cfg, r);
    TimelyRunKeepsInv(cfg, r, n);
    DeliveriesFollowClaims(cfg, r, n, k);
    var log := r.states[n].log;
    var i: nat :| Completes(log, i, k);
    assert CommitOk(cfg, r.states[n].store, log, u, r.states[n].pcs[u]);
    forall j: nat | j < |log| && log[j] == Claimed(u, id) ensures !QuietSince(log, j, id) {
      OneClaimPerAd(cfg, r, n, i, j, id);
      assert log[k].Subject() == id && log[k].Versioned();
    }
  }

  lemma CarrierIsAlone(cfg: Config, r: Trace, n: nat, t: Tid, u: Tid, id: string)
    requires IsCodedRun(cfg, r) && n < |r.states| && t in r.states[n].pcs && u in r.states[n].pcs && t != u
    requires Carries(r.states[n].pcs[t], id)
    ensures !Carries(r.states[n].pcs[u], id) && !Claims(r.states[n].pcs[u], id)
  {
    var k := DeliveryOfCarrier(cfg, r, n, t, id);
    DeliveredIsNotClaimed(cfg, r, n, k, u, id);
    if Carries(r.states[n].pcs[u], id) {
      CarriersAreOne(cfg, r, n, t, u, id);
    }
  }

  /** A copy is newly carried only of an ad that is processing. */
  lemma NewlyCarriedIsProcessing(cfg: Config, s: State, who: Tid, e: Effect, id: string)
    requires CommitInv(cfg, s) && Explained(cfg, s, who, e) && Carries(e.pc, id) && Carried(e.pc) != Carried(PcOf(s, who))
    ensures id in e.store && e.store[id].status == Processing
  {
    assert CommitOk(cfg, s.store, s.log, who, PcOf(s, who));
  }

  lemma OthersDoNotTakeIt(cfg: Config, s: State, who: Tid, e: Effect, t: Tid, id: string)
    requires Explained(cfg, s, who, e) && (e.events != [] ==> !GivesBack(e.events[0]))
    requires id in s.store && s.store[id].status == Processing
    requires if t == who then Carries(e.pc, id) else !Carries(PcOf(s, who), id)
    ensures id in e.store && e.store[id].status == Processing
  {
    StaysProcessing(cfg, s, who, e, id);
  }

  /** What a worker carries is processing. */
  lemma {:induction false} CarriedIsProcessing(cfg: Config, r: Trace, n: nat, t: Tid, id: string)
    requires IsCodedRun(cfg, r) && n < |r.states| && t in r.states[n].pcs && Carries(r.states[n].pcs[t], id)
    ensures id in r.states[n].store && r.states[n].store[id].status == Processing
  {
    assert n > 0;
    var s, l := r.states[n - 1], r.labels[n - 1];
    if l.Tick? {
      assert StepAt(cfg, r, n - 1);
      CarriedIsProcessing(cfg, r, n - 1, t, id);
    } else {
      var e := CodedEffect(cfg, r, n - 1);
      if t == l.who && Carried(e.pc) != Carried(PcOf(s, t)) {
        CodedRunsAreTimely(cfg, r);
        TimelyRunKeepsInv(cfg, r, n - 1);
        NewlyCarriedIsProcessing(cfg, s, t, e, id);
      } else {
        CarriedIsProcessing(cfg, r, n - 1, t, id);
        if t != l.who && l.who in s.pcs {
          CarrierIsAlone(cfg, r, n - 1, t, l.who, id);
        }
        OthersDoNotTakeIt(cfg, s, l.who, e, t, id);
      }
    }
  }

  // ---------- giving up ----------

  /**
   A worker that goes idle with a delivered ad, because its analysis failed or Complete did,
   leaves the ad processing for ever: nobody will claim, finish, fail or requeue it.
   */
  lemma AbandonedAdStaysProcessing(cfg: Config, r: Trace, i: nat, j: nat, who: Tid, id: string)
    requires IsCodedRun(cfg, r) && i < |r.labels| && i < j < |r.states|
    requires Carries(PcOf(r.states[i], who), id) && PcOf(r.states[i + 1], who).Idle?
    ensures IsStranded(r.states[j], id)
  {
    var s, s', l := r.states[i], r.states[i + 1], r.labels[i];
    CarriedIsProcessing(cfg, r, i, who, id);
    assert !l.Tick? && l.who == who by {
      assert StepAt(cfg, r, i);
    }
    var e := CodedEffect(cfg, r, i);
    StaysProcessing(cfg, s, who, e, id);
    forall u | u in s'.pcs ensures !Claims(s'.pcs[u], id) && !Carries(s'.pcs[u], id) {
      if u != who {
        CarrierIsAlone(cfg, r, i, who, u, id);
      }
    }
    StrandedForGood(cfg, r, i + 1, j, id);
  }
}
