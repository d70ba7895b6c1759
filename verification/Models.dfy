/**
 The advertisement record and its local mutators (internal/domain/models/ad.go).

 A `Record` is the struct value of one ad.  The store, the protocol and all the theorems
 speak of records; the class `Ad` is the mutable object the service passes around by
 pointer, and each of its methods is tied to one record function.
 Instants and durations are integers of one unit (nanoseconds in the service).
 */
module Models {
  datatype Option<+T> = None | Some(value: T)

  datatype AdStatus = Submitted | Queued | Processing | Completed | Failed

  datatype AdSubmission = AdSubmission(
    title: string,
    description: string,
    genre: string,
    targetAudience: seq<string>,
    visualElements: seq<string>,
    callToAction: string,
    duration: int,
    priority: int)

  datatype AdAnalysis = AdAnalysis(
    effectivenessScore: real,
    strengths: seq<string>,
    improvementSuggestions: seq<string>)

  const DEFAULT_PRIORITY := 5
  const MAX_ATTEMPTS_ERROR := "Exceeded maximum processing attempts"

  datatype Record = Record(
    adId: string,
    submission: AdSubmission,
    status: AdStatus,
    createdAt: int,
    queuedAt: Option<int>,
    processingStartedAt: Option<int>,
    completedAt: Option<int>,
    analysis: Option<AdAnalysis>,
    error: string,
    attempts: nat,
    workerId: string,
    version: int,
    effectivePriority: int)
  {
    function WithStatus(newStatus: AdStatus, now: int): Record {
      var r := this.(status := newStatus);
      match newStatus
      case Queued => r.(queuedAt := Some(now), effectivePriority := submission.priority)
      case Processing => r.(processingStartedAt := Some(now))
      case Completed => r.(completedAt := Some(now))
      case _ => r
    }

    function WithError(message: string, now: int): Record {
      this.(error := message).WithStatus(Failed, now)
    }

    /** What a successful claim writes: the worker and one more attempt. */
    function ClaimedBy(worker: string): Record {
      this.(workerId := worker, attempts := attempts + 1)
    }

    predicate IsProcessable() {
      status == Submitted || status == Queued
    }

    function WaitingTime(now: int): int {
      if queuedAt.None? then 0 else now - queuedAt.value
    }

    predicate HasExceededMaxWaitTime(maxWaitTime: int, now: int) {
      WaitingTime(now) > maxWaitTime
    }

    predicate Ages() {
      status == Queued && queuedAt.Some?
    }

    predicate HasComputedPriority(maxWaitTime: int, now: int) {
      Ages() ==> HasRatio(WaitingTime(now), maxWaitTime)
    }

    /** The number CalculateEffectivePriority returns; it also stores it, but only in a queued ad. */
    function ComputedPriority(agingRate: real, maxWaitTime: int, now: int): int
      requires HasComputedPriority(maxWaitTime, now)
    {
      if status != Queued || queuedAt.None? then submission.priority
      else AgedPriority(submission.priority, WaitingTime(now), agingRate, maxWaitTime)
    }

    /** The guard of the expiry pass. */
    predicate HasExpired(cutoff: int) {
      processingStartedAt.Some? && processingStartedAt.value < cutoff
    }
  }

  function NewRecord(submission: AdSubmission, now: int): Record {
    var sub := if submission.priority <= 0 then submission.(priority := DEFAULT_PRIORITY) else submission;
    Record("", sub, Submitted, now, None, None, None, None, "", 0, "", 1, 0)
  }

  // ---------- aging arithmetic ----------

  /** Go's conversion of a float to an int drops the fraction towards zero. */
  function Truncate(x: real): int {
    if x >= 0.0 then x.Floor else -((-x).Floor)
  }

  /** Go divides floats: a positive number by zero is infinite, zero by zero is no number. */
  predicate HasRatio(waiting: int, maxWaitTime: int) {
    maxWaitTime != 0 || waiting > 0
  }

  function WaitingRatio(waiting: int, maxWaitTime: int): real
    requires HasRatio(waiting, maxWaitTime)
  {
    if maxWaitTime == 0 then 1.0
    else
      var ratio := waiting as real / maxWaitTime as real;
      if ratio > 1.0 then 1.0 else ratio
  }

  function AgedPriority(priority: int, waiting: int, agingRate: real, maxWaitTime: int): int
    requires HasRatio(waiting, maxWaitTime)
  {
    Boosted(priority, Boost(priority, WaitingRatio(waiting, maxWaitTime), agingRate))
  }

  function Boost(priority: int, waitingRatio: real, agingRate: real): real {
    priority as real * waitingRatio * agingRate
  }

  /** A priority lowered by a boost, but never below the highest priority, 1. */
  function Boosted(priority: int, boost: real): int {
    if priority - Truncate(boost) < 1 then 1 else priority - Truncate(boost)
  }

  // ---------- the mutable object ----------

  /**
   A shared ad (`*models.Ad`): a cell holding one record, whose methods assign to the
   record's fields.  Copying the ad (`adCopy := *ad`) makes a new cell.
   */
  class Ad {
    var rec: Record

    constructor (r: Record)
      ensures rec == r
    {
      rec := r;
    }

    constructor New(submission: AdSubmission, now: int)
      ensures rec == NewRecord(submission, now)
      ensures var priority := if submission.priority <= 0 then 5 else submission.priority;
        rec == Record("", submission.(priority := priority), Submitted, now, None, None, None, None, "", 0, "", 1, 0)
    {
      var sub := submission;
      if sub.priority <= 0 {
        sub := sub.(priority := DEFAULT_PRIORITY);
      }
      rec := Record("", sub, Submitted, now, None, None, None, None, "", 0, "", 1, 0);
    }

    method SetStatus(newStatus: AdStatus, now: int)
      modifies this
      ensures rec == old(rec).WithStatus(newStatus, now)
      ensures newStatus == Queued ==>
        rec == old(rec).(status := Queued, queuedAt := Some(now), effectivePriority := old(rec).submission.priority)
      ensures newStatus == Processing ==> rec == old(rec).(status := Processing, processingStartedAt := Some(now))
      ensures newStatus == Completed ==> rec == old(rec).(status := Completed, completedAt := Some(now))
      ensures newStatus in {Submitted, Failed} ==> rec == old(rec).(status := newStatus)
    {
      rec := rec.(status := newStatus);
      if newStatus == Queued {
        rec := rec.(queuedAt := Some(now));
        rec := rec.(effectivePriority := rec.submission.priority);
      } else if newStatus == Processing {
        rec := rec.(processingStartedAt := Some(now));
      } else if newStatus == Completed {
        rec := rec.(completedAt := Some(now));
      }
    }

    method IncrementAttempts() returns (n: nat)
      modifies this
      ensures rec == old(rec).(attempts := n) && n == old(rec).attempts + 1
    {
      rec := rec.(attempts := rec.attempts + 1);
      n := rec.attempts;
    }

    method AssignWorker(worker: string)
      modifies this
      ensures rec == old(rec).(workerId := worker)
    {
      rec := rec.(workerId := worker);
    }

    method SetAnalysisResults(results: AdAnalysis)
      modifies this
      ensures rec == old(rec).(analysis := Some(results))
    {
      rec := rec.(analysis := Some(results));
    }

    method SetError(message: string, now: int)
      modifies this
      ensures rec == old(rec).WithError(message, now) == old(rec).(status := Failed, error := message)
    {
      rec := rec.(error := message);
      SetStatus(Failed, now);
    }

    method CalculateEffectivePriority(agingRate: real, maxWaitTime: int, now: int) returns (p: int)
      modifies this
      ensures !old(rec).Ages() ==> p == old(rec).submission.priority && rec == old(rec)
      ensures old(rec).Ages() ==> rec == old(rec).(effectivePriority := p)
      ensures old(rec).HasComputedPriority(maxWaitTime, now) ==> p == old(rec).ComputedPriority(agingRate, maxWaitTime, now)
      ensures !old(rec).HasComputedPriority(maxWaitTime, now) ==> p >= 1
    {
      if rec.status != Queued || rec.queuedAt.None? {
        return rec.submission.priority;
      }
      var waitingTime := now - rec.queuedAt.value;
      var priorityBoost := PriorityBoost(waitingTime, agingRate, maxWaitTime);
      p := rec.submission.priority - priorityBoost;
      if p < 1 {
        p := 1;
      }
      rec := rec.(effectivePriority := p);
    }

    method PriorityBoost(waitingTime: int, agingRate: real, maxWaitTime: int) returns (priorityBoost: int)
      ensures HasRatio(waitingTime, maxWaitTime) ==>
        priorityBoost == Truncate(Boost(rec.submission.priority, WaitingRatio(waitingTime, maxWaitTime), agingRate))
    {
      if maxWaitTime == 0 && waitingTime <= 0 {
        priorityBoost := *; // the conversion of such a float to an integer is up to the platform
        return;
      }
      var waitingRatio := 1.0; // an infinite ratio is capped like any other
      if maxWaitTime != 0 {
        waitingRatio := waitingTime as real / maxWaitTime as real;
      }
      if waitingRatio > 1.0 {
        waitingRatio := 1.0;
      }
      priorityBoost := Truncate(Boost(rec.submission.priority, waitingRatio, agingRate));
    }
  }
}
