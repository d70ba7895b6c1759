/**
 The job lifecycle as an abstract, event-sourced machine.

 An event names the ad and the one change made to it.  A log is legal when each event
 was enabled where it happened, and the stored ads are what replaying the log yields.
 Module Refinement shows that the interleaved protocol only ever produces legal logs,
 so what is proved here about logs holds of every run of the real steps.
 */
module Lifecycle {
  import opened Models
  import opened Store

  /** One goroutine: a slot of a worker of an instance (API and maintenance goroutines included). */
  datatype Tid = Tid(instanceId: string, worker: nat, slot: nat)

  datatype Event =
    | Saved(ad: Record)
    | Enqueued(id: string, at: int)
    | Claimed(who: Tid, id: string)
    | Delivered(who: Tid, id: string, version: int, ep: int)
    | Finished(who: Tid, id: string, at: int)
    | Analysed(who: Tid, id: string, analysis: AdAnalysis, ep: int)
    | Requeued(id: string)
    | Abandoned(id: string, error: string, ep: int)
    | Reprioritised(id: string, ep: int)
    | Pushed(id: string, ep: int)
    | Counted(who: Tid, id: string)
  {
    function Subject(): string {
      if Saved? then ad.adId else id
    }

    /** Does this event write a new version of its ad? */
    predicate Versioned() {
      !Pushed? && !Counted?
    }
  }

  /** The shape of an ad as it is first saved. */
  ghost predicate IsNew(ad: Record) {
    && ad.adId != "" && ad.status == Submitted && ad.version == 1 && ad.attempts == 0
    && ad.queuedAt.None? && ad.processingStartedAt.None? && ad.completedAt.None?
    && ad.analysis.None? && ad.error == "" && ad.workerId == ""
    && ad.submission.priority >= 1
  }

  predicate PriorityInRange(ad: Record, ep: int) {
    1 <= ep <= ad.submission.priority
  }

  ghost predicate Enabled(s: Ads, e: Event) {
    if e.Saved? then e.ad.adId !in s && IsNew(e.ad)
    else e.id in s && var ad := s[e.id];
      match e
      case Enqueued(_, _) => ad.status == Submitted
      case Claimed(_, _) => ad.status == Queued
      case Delivered(who, _, version, ep) =>
        ad.status != Submitted && who.instanceId != "" && version == ad.version + 1 && PriorityInRange(ad, ep)
      case Finished(_, _, _) => ad.status == Processing
      case Analysed(_, _, _, ep) => ad.status == Completed && ad.analysis.None? && PriorityInRange(ad, ep)
      case Requeued(_) => ad.status == Processing
      case Abandoned(_, error, ep) => ad.status == Processing && error != "" && PriorityInRange(ad, ep)
      case Reprioritised(_, ep) => ad.status == Queued && PriorityInRange(ad, ep)
      case Pushed(_, ep) => ad.status != Submitted && PriorityInRange(ad, ep)
      case Counted(_, _) => ad.analysis.Some?
  }

  function Changed(ad: Record, e: Event): Record
    requires !e.Saved?
  {
    match e
    case Enqueued(_, at) => NextVersion(ad.WithStatus(Queued, at))
    case Claimed(_, _) => Swapped(ad, Processing, 0)
    case Delivered(who, _, _, ep) => NextVersion(ad.ClaimedBy(who.instanceId)).(effectivePriority := ep)
    case Finished(_, _, at) => Swapped(ad, Completed, at)
    case Analysed(_, _, analysis, ep) => NextVersion(ad.(analysis := Some(analysis), effectivePriority := ep))
    case Requeued(_) => Swapped(ad, Queued, 0)
    case Abandoned(_, error, ep) => NextVersion(ad.WithError(error, 0)).(effectivePriority := ep)
    case Reprioritised(_, ep) => NextVersion(ad.(effectivePriority := ep))
    case Pushed(_, ep) => ad.(effectivePriority := ep)
    case Counted(_, _) => ad
  }

  /** The store after an event; an event about an unknown ad changes nothing. */
  function Apply(s: Ads, e: Event): Ads {
    if e.Saved? then s[e.ad.adId := e.ad]
    else if e.id in s then s[e.id := Changed(s[e.id], e)]
    else s
  }

  // ---------- logs ----------

  type Log = seq<Event>

  function Replay(log: Log): Ads {
    if log == [] then map[] else Apply(Replay(log[..|log| - 1]), log[|log| - 1])
  }

  ghost predicate Legal(log: Log) {
    log == [] || (Legal(log[..|log| - 1]) && Enabled(Replay(log[..|log| - 1]), log[|log| - 1]))
  }

  lemma LegalExtend(log: Log, e: Event)
    requires Legal(log) && Enabled(Replay(log), e)
    ensures Legal(log + [e]) && Replay(log + [e]) == Apply(Replay(log), e)
  {
    var all := log + [e];
    assert all != [] && all[..|all| - 1] == log && all[|all| - 1] == e;
    assert Replay(all) == Apply(Replay(log), e);
    assert Legal(all) == (Legal(log) && Enabled(Replay(log), e));
  }

  lemma {:induction false} LegalPrefix(log: Log, n: nat)
    requires Legal(log) && n <= |log|
    ensures Legal(log[..n])
    ensures n < |log| ==> Enabled(Replay(log[..n]), log[n])
    decreases |log|
  {
    if n == |log| {
      assert log[..n] == log;
    } else if n < |log| - 1 {
      LegalPrefix(log[..|log| - 1], n);
      assert log[..|log| - 1][..n] == log[..n];
    }
  }

  // ---------- what one event does ----------

  /** What every record satisfies between steps. */
  ghost predicate Consistent(ad: Record) {
    && (ad.completedAt.Some? <==> ad.status == Completed)
    && (ad.analysis.Some? ==> ad.status == Completed)
    && (ad.error != "" <==> ad.status == Failed)
    && (ad.queuedAt.None? <==> ad.status == Submitted)
    && (ad.workerId != "" <==> ad.attempts > 0)
    && (ad.status == Submitted ==> ad.attempts == 0)
    && ad.processingStartedAt.None?
    && ad.submission.priority >= 1
    && (ad.status != Submitted ==> PriorityInRange(ad, ad.effectivePriority))
  }

  /** The edges of the lifecycle, stuttering allowed. */
  predicate Edge(from: AdStatus, to: AdStatus) {
    || from == to
    || (from == Submitted && to == Queued)
    || (from == Queued && to == Processing)
    || (from == Processing && to in {Completed, Failed, Queued})
  }

  /** What the past of a record guarantees about its future. */
  ghost predicate AdEvolves(a: Record, b: Record) {
    && a.version <= b.version
    && (a.version == b.version ==> SameButPriority(a, b))
    && a.adId == b.adId && a.submission == b.submission && a.createdAt == b.createdAt
    && a.attempts <= b.attempts
    && (a.status != Submitted ==> b.status != Submitted)
    && (a.status in {Completed, Failed} ==> b.status == a.status)
    && (a.analysis.Some? ==> b.analysis == a.analysis)
  }

  ghost predicate Evolves(s: Ads, s': Ads) {
    forall id | id in s :: id in s' && AdEvolves(s[id], s'[id])
  }

  lemma EvolvesTransitive(s: Ads, s': Ads, s'': Ads)
    requires Evolves(s, s') && Evolves(s', s'')
    ensures Evolves(s, s'')
  {
    forall id | id in s ensures id in s'' && AdEvolves(s[id], s''[id]) {
      assert id in s' && AdEvolves(s[id], s'[id]);
      assert AdEvolves(s'[id], s''[id]);
    }
  }

  lemma ChangedEffect(ad: Record, e: Event)
    requires !e.Saved? && Enabled(map[e.id := ad], e)
    ensures AdEvolves(ad, Changed(ad, e))
    ensures Edge(ad.status, Changed(ad, e).status)
    ensures Changed(ad, e).version == ad.version + if e.Versioned() then 1 else 0
  {
  }

  /** An event moves its own ad along one edge, in a new version if versioned, and no other ad. */
  lemma EventEffect(s: Ads, e: Event)
    requires Enabled(s, e) && WellKeyed(s)
    ensures WellKeyed(Apply(s, e)) && Evolves(s, Apply(s, e))
    ensures Apply(s, e).Keys == s.Keys + {e.Subject()}
    ensures forall id | id in s && id != e.Subject() :: Apply(s, e)[id] == s[id]
    ensures !e.Saved? ==>
              && Edge(s[e.id].status, Apply(s, e)[e.id].status)
              && Apply(s, e)[e.id].version == s[e.id].version + if e.Versioned() then 1 else 0
  {
    if !e.Saved? {
      ChangedEffect(s[e.id], e);
    }
  }

  lemma ConsistentStep(s: Ads, e: Event)
    requires Enabled(s, e) && forall id | id in s :: Consistent(s[id])
    ensures forall id | id in Apply(s, e) :: Consistent(Apply(s, e)[id])
  {
  }

  /** Record consistency and keying, after every legal log. */
  lemma {:induction false} LegalStoreIsConsistent(log: Log)
    requires Legal(log)
    ensures WellKeyed(Replay(log))
    ensures forall id | id in Replay(log) :: Consistent(Replay(log)[id])
    decreases |log|
  {
    if log != [] {
      var n := |log| - 1;
      LegalStoreIsConsistent(log[..n]);
      EventEffect(Replay(log[..n]), log[n]);
      ConsistentStep(Replay(log[..n]), log[n]);
    }
  }

  /** Expiry as coded never fires: nothing ever sets the instant its guard tests. */
  lemma ExpiryGuardIsNeverTrue(log: Log, id: string, cutoff: int)
    requires Legal(log) && id in Replay(log)
    ensures !Replay(log)[id].HasExpired(cutoff)
  {
    LegalStoreIsConsistent(log);
  }

  // ---------- attempts count deliveries ----------

  function Deliveries(log: Log, id: string): nat {
    if log == [] then 0
    else Deliveries(log[..|log| - 1], id) + if log[|log| - 1].Delivered? && log[|log| - 1].id == id then 1 else 0
  }

  lemma {:induction false} AttemptsCountDeliveries(log: Log, id: string)
    requires Legal(log)
    ensures if id in Replay(log) then Replay(log)[id].attempts == Deliveries(log, id) else Deliveries(log, id) == 0
    decreases |log|
  {
    if log != [] {
      AttemptsCountDeliveries(log[..|log| - 1], id);
    }
  }

  // ---------- one claim at a time, one completion at most ----------

  ghost predicate IsClaim(log: Log, i: nat, id: string) {
    i < |log| && log[i].Claimed? && log[i].id == id
  }

  ghost predicate IsFinish(log: Log, i: nat, id: string) {
    i < |log| && log[i].Finished? && log[i].id == id
  }

  ghost predicate RequeuedBetween(log: Log, i: nat, j: nat, id: string) {
    exists k :: i < k < j <= |log| && log[k] == Requeued(id)
  }

  /** A claimed ad is in the queue again only after a requeue. */
  lemma {:induction false} OpenClaimIsNotQueued(log: Log, i: nat, id: string)
    requires Legal(log) && IsClaim(log, i, id)
    ensures id in Replay(log)
    ensures RequeuedBetween(log, i, |log|, id) || Replay(log)[id].status in {Processing, Completed, Failed}
    decreases |log|
  {
    var n := |log| - 1;
    if i < n {
      OpenClaimIsNotQueued(log[..n], i, id);
      if RequeuedBetween(log[..n], i, n, id) {
        var k :| i < k < n && log[..n][k] == Requeued(id);
        assert log[k] == Requeued(id);
      } else if log[n] == Requeued(id) {
        assert RequeuedBetween(log, i, |log|, id);
      }
    }
  }

  /** Between two successful claims of one ad lies a requeue of it. */
  lemma ClaimsAreSeparatedByRequeues(log: Log, i: nat, j: nat, id: string)
    requires Legal(log) && i < j && IsClaim(log, i, id) && IsClaim(log, j, id)
    ensures RequeuedBetween(log, i, j, id)
  {
    LegalPrefix(log, j);
    OpenClaimIsNotQueued(log[..j], i, id);
    var k :| i < k < j && log[..j][k] == Requeued(id);
    assert log[k] == Requeued(id);
  }

  lemma {:induction false} FinishedIsCompleted(log: Log, i: nat, id: string)
    requires Legal(log) && IsFinish(log, i, id)
    ensures id in Replay(log) && Replay(log)[id].status == Completed
    decreases |log|
  {
    if i < |log| - 1 {
      FinishedIsCompleted(log[..|log| - 1], i, id);
    }
  }

  /** No ad is completed twice. */
  lemma AtMostOneFinish(log: Log, i: nat, j: nat, id: string)
    requires Legal(log) && IsFinish(log, i, id) && IsFinish(log, j, id)
    ensures i == j
  {
    var lo, hi := if i < j then i else j, if i < j then j else i;
    LegalPrefix(log, hi);
    if lo < hi {
      FinishedIsCompleted(log[..hi], lo, id);
    }
  }
}
