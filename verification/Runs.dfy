/**
 What the refinement gives for whole runs: every interleaving of submissions, dequeues,
 completions, requeues and priority passes, under any lock outcomes, is a lifecycle run.
 */
module Runs {
  import opened Models
  import opened Store
  import opened Lifecycle
  import opened Protocol
  import opened Refinement

  lemma {:induction false} RunKeepsInv(cfg: Config, r: Trace, i: nat)
    requires IsRun(cfg, r) && i < |r.states|
    ensures Inv(r.states[i])
  {
    if i > 0 {
      RunKeepsInv(cfg, r, i - 1);
      assert StepAt(cfg, r, i - 1);
      InvStep(cfg, r.states[i - 1], r.labels[i - 1], r.states[i]);
    }
  }

  lemma StepOfRun(cfg: Config, r: Trace, i: nat)
    requires IsRun(cfg, r) && i < |r.labels|
    ensures Inv(r.states[i]) && Step(cfg, r.states[i], r.labels[i], r.states[i + 1])
    ensures Refines(r.states[i], r.states[i + 1])
    ensures Evolves(r.states[i].store, r.states[i + 1].store)
    ensures r.states[i].log <= r.states[i + 1].log && r.states[i].clock <= r.states[i + 1].clock
  {
    RunKeepsInv(cfg, r, i);
    assert StepAt(cfg, r, i);
    StepRefines(cfg, r.states[i], r.labels[i], r.states[i + 1]);
  }

  /**
   One lifecycle transition of one ad, or a stutter: a new ad is submitted; a known ad
   moves along one edge of the lifecycle in exactly the next version; or a push changes
   nothing but an effective priority.
   */
  ghost predicate LifecycleStep(st: Ads, st': Ads) {
    || st' == st
    || (exists id ::
          && st'.Keys == st.Keys + {id}
          && (forall other | other in st && other != id :: st'[other] == st[other])
          && (if id !in st then IsNew(st'[id])
              else if st'[id].version == st[id].version then SameButPriority(st[id], st'[id])
              else st'[id].version == st[id].version + 1 && Edge(st[id].status, st'[id].status)))
  }

  /** The main refinement, step by step. */
  lemma RunRefinesLifecycle(cfg: Config, r: Trace, i: nat)
    requires IsRun(cfg, r) && i < |r.labels|
    ensures Refines(r.states[i], r.states[i + 1])
    ensures LifecycleStep(r.states[i].store, r.states[i + 1].store)
  {
    StepOfRun(cfg, r, i);
    var s, s' := r.states[i], r.states[i + 1];
    if s'.store != s.store {
      var e :| Enabled(s.store, e) && s'.log == s.log + [e] && s'.store == Apply(s.store, e);
      LegalStoreIsConsistent(s.log);
      EventIsLifecycleStep(s.store, e);
    }
  }

  lemma EventIsLifecycleStep(st: Ads, e: Event)
    requires WellKeyed(st) && Enabled(st, e)
    ensures LifecycleStep(st, Apply(st, e))
  {
    EventEffect(st, e);
    var id := e.Subject();
    assert Apply(st, e).Keys == st.Keys + {id};
    if id in st {
      assert AdEvolves(st[id], Apply(st, e)[id]);
    }
  }

  /**
   Across any stretch of a run no ad disappears, no version or attempt count falls, a
   version means one record (up to its effective priority), the submission never changes,
   and completed and failed are never left.
   */
  lemma {:induction false} RunOnlyEvolves(cfg: Config, r: Trace, i: nat, j: nat)
    requires IsRun(cfg, r) && i <= j < |r.states|
    ensures Evolves(r.states[i].store, r.states[j].store)
    ensures r.states[i].log <= r.states[j].log
    ensures r.states[i].clock <= r.states[j].clock
    decreases j - i
  {
    if i < j {
      RunOnlyEvolves(cfg, r, i, j - 1);
      StepOfRun(cfg, r, j - 1);
      EvolvesTransitive(r.states[i].store, r.states[j - 1].store, r.states[j].store);
    }
  }

  /** Every record in every reachable state is consistent, and past submission its urgency is in 1..priority. */
  lemma RunRecordsAreConsistent(cfg: Config, r: Trace, i: nat, id: string)
    requires IsRun(cfg, r) && i < |r.states| && id in r.states[i].store
    ensures Consistent(r.states[i].store[id]) && r.states[i].store[id].adId == id
  {
    RunKeepsInv(cfg, r, i);
    LegalStoreIsConsistent(r.states[i].log);
  }

  /** In every reachable state an ad's attempts are its successful deliveries so far. */
  lemma RunAttemptsAreDeliveries(cfg: Config, r: Trace, i: nat, id: string)
    requires IsRun(cfg, r) && i < |r.states| && id in r.states[i].store
    ensures r.states[i].store[id].attempts == Deliveries(r.states[i].log, id)
  {
    RunKeepsInv(cfg, r, i);
    AttemptsCountDeliveries(r.states[i].log, id);
  }

  /** In every run an ad is claimed again only after a requeue, and completed at most once. */
  lemma RunClaimsAndFinishes(cfg: Config, r: Trace, n: nat, i: nat, j: nat, id: string)
    requires IsRun(cfg, r) && n < |r.states| && i < j
    ensures var log := r.states[n].log;
            && (IsClaim(log, i, id) && IsClaim(log, j, id) ==> RequeuedBetween(log, i, j, id))
            && !(IsFinish(log, i, id) && IsFinish(log, j, id))
  {
    RunKeepsInv(cfg, r, n);
    var log := r.states[n].log;
    if IsClaim(log, i, id) && IsClaim(log, j, id) {
      ClaimsAreSeparatedByRequeues(log, i, j, id);
    }
    if IsFinish(log, i, id) && IsFinish(log, j, id) {
      AtMostOneFinish(log, i, j, id);
    }
  }

  // ---------- building runs ----------

  ghost function Last(r: Trace): State
    requires |r.states| > 0
  {
    r.states[|r.states| - 1]
  }

  lemma Extend(cfg: Config, r: Trace, l: Label) returns (r': Trace)
    requires IsRun(cfg, r) && cfg.Valid() && Allowed(Last(r), l)
    ensures IsRun(cfg, r') && Last(r') == Do(cfg, Last(r), l) && r'.states == r.states + [Last(r')]
  {
    r' := Trace(r.states + [Do(cfg, Last(r), l)], r.labels + [l]);
    forall i: nat | i < |r'.labels| ensures StepAt(cfg, r', i) {
      if i < |r.labels| {
        assert StepAt(cfg, r, i);
      }
    }
  }
}
