# Verified model of the ad processing queue

The repository is a service that accepts advertisements, keeps them in a store, and has
workers take them from a distributed priority queue, analyse them and store the result.
Many goroutines share one store; every store method runs under a mutex, but the queue's
operations are sequences of store calls with gaps in between.  Optimistic versions, a
status compare-and-swap and leases are meant to keep that safe.  This project states what
they achieve and proves it in Dafny.  `dafny verify dfyconfig.toml` checks everything.

## How it is built

| Layer | Files | What is there |
|---|---|---|
| Ads and aging | `Models.dfy`, `Aging.dfy` | the ad record, the mutable `Ad`, aging arithmetic over reals |
| Store | `Store.dfy`, `MemoryRepository.dfy`, `Cache.dfy`, `Leases.dfy` | each store call as a function on values; the class over heap objects proved against it; the Redis sorted set; lease safety |
| Interleaving | `Lifecycle.dfy`, `Protocol.dfy`, `Refinement.dfy`, `Runs.dfy`, `Fencing.dfy`, `Commit.dfy`, `CodedExpiry.dfy`, `EarlyExpiry.dfy`, `Stranded.dfy`, `Conservation.dfy`, `Capacity.dfy`, `Overshoot.dfy`, `Provenance.dfy`, `Solo.dfy` | an abstract lifecycle of events; threads with program counters and local ad copies over the shared store, one store call a step; theorems about every run |
| One call at a time | `DequeueSearch.dfy`, `Queue.dfy`, `Maintenance.dfy`, `Drain.dfy`, `AdService.dfy` | the queue class step by step, and what a dequeue, a drain, a maintenance pass and a listing amount to |
| Worker pool | `WorkerPool.dfy` | the pool and its auto-scaler |

The store is defined once: `Store.Update`, `Store.Cas`, `Store.Push` and the others specify
the methods of `Memory.MemoryRepository`, and they are the atomic steps of `Protocol`.  The
two views therefore cannot drift apart: `Solo` shows that a thread left alone leaves, field
by field, the records that the methods of the queue class leave.

The interleaved model is deliberately generous to the environment.  In it the following
are free choices at every step: whether a lock is granted, what the cache pops (any ID,
stored or not), what the analysis returns, whether a processing ad counts as expired,
whether a push reaches the shared record (it does when the memory store is its own cache,
it does not with Redis), and how far the clock moves forward.  Its theorems hold for all of
them.  A run starts from the empty store.

Words used below.  A *claim* is a dequeue's status swap from queued to processing; a
*delivery* is the second write of the dequeue, after which the ad is handed to the worker.
A *finish* is the status swap of `Complete`.  A *versioned write* is any write but a push.
A *timely* run is one where no requeue or abandonment of an ad happens between the claim's
status swap and its second write (`Commit.IsTimelyRun`).  A *coded* run is one where the
expiry pass goes by the guard as it is written (`CodedExpiry.IsCodedRun`); every coded run
is timely.

## Where the code and its comments disagree

The model follows the code.

* Nothing sets `ProcessingStartedAt`: the claim goes through `AtomicStatusUpdate`, which
  does not.  The expiry guard at `internal/processor/queue.go:366` is therefore false in
  every reachable state (`Lifecycle.ExpiryGuardIsNeverTrue`, `Maintenance.ExpiryNeverFires`).
  So in every coded run no ad ever returns to the queue, two-phase writes commit, and an ad
  is tried once at most, whatever the maximum (`CodedExpiry.OneAttemptPerAd`).
* The other interleaved theorems let expiry strike any processing ad at any time, so they
  also cover the stated intent of the pass.  Should the guard ever come to hold, the bound
  on attempts needs expiry to stay out of a half-done claim:
  `EarlyExpiry.ExpiryInsideAClaimBreaksTheBound` is a run of that intent, not of the code as
  it is, and `EarlyExpiry.AttemptsBoundedExactlyWhenClaimsFit` gives the exact condition.
* The leases do not keep two workers of one process apart, because they share an owner ID:
  a live lease is granted again to every call under its owner's name
  (`Leases.OnlyTheOwnersNameAcquires`).
  Every safety theorem rests on versions and holds with arbitrary lock outcomes.
* `internal/storage/memory/memory_store_test.go:76-89` expects `Update` to accept version 2
  over a stored version 1; `memory_store.go:98` rejects it, and so does the model.
* The two selections break ties differently (`Store.PathsMayPickDifferentAds`), though they
  never differ in urgency.
* An unfiltered listing applies its offset to every status again.  It is the page of the
  joined lists exactly when the offset is zero or beyond them all, or the first status with
  any ads fills the page, or no later status has any
  (`AdService.ListAllIsAPageExactlyWhenSafe`); otherwise ads can be on no page
  (`AdService.SecondAdIsOnNoPage`).
* `RemoveWorker` with waiting stops a worker and leaves it in the pool, where it still
  counts (`WorkerPool.StoppedWorkersStillCount`).  Every worker of the pool runs exactly as
  long as no such removal is accepted (`WorkerPool.WorkersRunExactlyWithoutWaiting`).  The
  limits bound the number that run if and only if every move that stops a running worker is
  made while more than the minimum run; the code tests the size of the pool instead
  (`WorkerPool.LimitsBoundRunningExactlyWhenStopsAreSafe`).
* The capacity is checked, and acted on later.  It holds if and only if every write that
  enters the queue, a requeue included, finds the queue below capacity
  (`Overshoot.CapacityHoldsExactlyWhenEntriesFit`); k racing enqueues can overshoot it by
  k - 1 (`Overshoot.OvershootIsReached`).
* A worker whose analysis or `Complete` fails goes on to the next ad.  With the expiry guard
  as it is, the ad it leaves stays processing for ever (`Stranded.AbandonedAdStaysProcessing`).
* On a memory cache a popped ad whose lease another owner holds stays first in line, so
  `Dequeue` pops it again and again while the lease lasts
  (`DequeueSearch.LeasedOfferComesBack`).

## Assumptions

`maxWaitTime > 0`, `agingRate >= 0` and `maxAttempts >= 1` (`Protocol.Config.Valid`), as
the defaults and the configuration checks have them, are assumed of the interleaved model
and the maintenance passes; instance IDs are not empty; submitted ads have a new ID, as the
HTTP handler gives them.  In the interleaved model the creation and the queue time of an ad
are read at any instants before the writes that store them.  One call on the queue class
happens at one instant `now`.  Numbers are unbounded integers, the aging ratio is a real.

## Model

| member | source | states |
|---|---|---|
| Models.Ad.SetStatus | internal/domain/models/ad.go:106-122 | field by field for each status: the status with its own timestamp at the given instant, and the effective priority reset to the priority only on queueing |
| Models.Ad.SetError | internal/domain/models/ad.go:141-144 | the ad fails with this message, without touching any timestamp |
| Models.Ad.CalculateEffectivePriority | internal/domain/models/ad.go:158-189 | returns the aged priority of a queued ad and stores it; any other ad keeps its record and yields its priority; where the ratio is no number (no maximum wait and no wait) some priority of at least 1 |
| Aging.AgedPriorityBounds | internal/domain/models/ad.go:164-188 | the aged priority lies in 1..priority for every wait and rate |
| Aging.AgedPriorityAntitoneInWait | internal/domain/models/ad.go:164-188 | waiting longer never makes an ad less urgent |
| Aging.AgedPrioritySaturates | internal/domain/models/ad.go:169-185 | from the maximum wait on it stays at max(1, P - floor(P * rate)) |
| Aging.AgedPriorityExactly | internal/domain/models/ad.go:164-188 | aging is gradual: after a wait w, counted up to the maximum m, the aged priority is max(1, P - floor(P * w * rate / m)) |
| Aging.ComputedPriorityExactly | internal/domain/models/ad.go:158-189 | that is what the calculation yields for an ad queued at q, with w = now - q |
| Aging.AdvanceInWholes | internal/domain/models/ad.go:177 | the whole part, without a division: b is floor(P * w * rate / m) if and only if b * m <= P * w * rate < b * m + m |
| Aging.AgingPreservesOrder | internal/domain/models/ad.go:177-185 | aging never reverses two ads queued together, whatever the rate and the rounding |
| Memory.MemoryRepository.Save | internal/storage/memory/memory_store.go:41-58 | stores a copy under the ad's ID, refuses an empty ID, touches no other ad |
| Memory.MemoryRepository.Get | internal/storage/memory/memory_store.go:61-77 | a fresh object equal to the stored ad, or which error |
| Memory.MemoryRepository.Update | internal/storage/memory/memory_store.go:80-110 | succeeds exactly at the stored version, and then store and caller both hold the next version; otherwise nothing changes |
| Memory.MemoryRepository.AtomicStatusUpdate | internal/storage/memory/memory_store.go:254-283 | succeeds exactly at the stored version and status; swaps the status in place, sets a timestamp only on completion |
| Memory.MemoryRepository.PushToQueue | internal/storage/memory/memory_store.go:382-400 | rewrites the effective priority in place, in any status and without a new version |
| Memory.MemoryRepository.FindByStatus | internal/storage/memory/memory_store.go:113-144 | the requested page of a list that holds every ad of the status once, newest first |
| Memory.MemoryRepository.FindByPriority | internal/storage/memory/memory_store.go:147-184 | the first entries of a list that holds every ad of the status once, by urgency, priority and age |
| Memory.MemoryRepository.CountByStatus | internal/storage/memory/memory_store.go:187-200 | the number of stored ads of the status |
| Memory.MemoryRepository.PopFromQueue | internal/storage/memory/memory_store.go:403-429 | a queued ad least by urgency and age, which stays stored; fails exactly when none is queued |
| Memory.MemoryRepository.AcquireLock | internal/storage/memory/memory_store.go:310-343 | granted unless another owner's lease is live, up to and including its expiry instant; then the lease is the caller's |
| Memory.MemoryRepository.ReleaseLock | internal/storage/memory/memory_store.go:346-362 | removes the caller's own lease only |
| Memory.SortSlice | internal/storage/memory/memory_store.go:129-131 | a sorted permutation; nothing is promised about ties |
| Store.ListingHeadIsLeast | internal/storage/memory/memory_store.go:415-428 | the head of a sorted selection is a least ad of the status, and there is none exactly when no ad has the status |
| Store.BothPathsAgreeOnUrgency | internal/storage/memory/memory_store.go:163-176 | the ads the fast and the slow path select on one store have the same, minimal effective priority |
| Store.PathsPickTheSameAd | internal/storage/memory/memory_store.go:163-176 | the fast path's choice is also a choice of the slow path if and only if it has the least priority number among the most urgent |
| Store.PathsMayPickDifferentAds | internal/storage/memory/memory_store.go:420-425 | with equal urgency the two tie-breaks can select different ads |
| Store.PushAfterUpdate | internal/processor/queue.go:126-133 | on a memory cache the push that follows a write of the same priority is absorbed by it |
| Store.UpdateLiterally | internal/storage/memory/memory_store.go:80-110 | which error when, and otherwise the given record in the next version and no other change |
| Store.CasLiterally | internal/storage/memory/memory_store.go:254-283 | which error when, and otherwise the status, the next version, on completion the time, and no other change |
| Leases.LeaseStays | internal/storage/memory/memory_store.go:310-362 | a live lease survives any sequence of calls by other owners, stale releases included |
| Leases.NoOtherOwnerAcquires | internal/storage/memory/memory_store.go:317-335 | after an owner's latest acquire at t for d, nobody else acquires at or before t + d unless that owner released |
| Leases.OnlyTheOwnersNameAcquires | internal/storage/memory/memory_store.go:326-334 | while the lease is live, a call acquires it if and only if it is made under its owner's name: the lease does not tell the workers of one instance apart |
| Leases.ExpiredLeaseIsFree | internal/storage/memory/memory_store.go:319-325 | one instant later anybody can take it: the bound is exact |
| Cache.RedisQueue.PopFromQueue | internal/storage/cache/redis.go:145-163 | removes an ID of least score, fails exactly when empty |
| Cache.PopOrderMeaning | internal/storage/cache/redis.go:145-163 | successive pops return distinct IDs in score order and never overtake a better score |
| Refinement.StepRefines | internal/processor/queue.go:101-409 | every store call of every thread is one enabled lifecycle event or a stutter |
| Refinement.InvStep | internal/processor/queue.go:101-621 | every step keeps: fetched copies agree with the store as long as the versions do, and one thread at most completes an ad |
| Refinement.DeliverySound | internal/processor/queue.go:214-221 | the second write of a dequeue, from a possibly stale copy, is one enabled delivery event and leaves the thread a current copy |
| Refinement.AnalysisSound | internal/processor/queue.go:329-336 | the second write of a completion adds the analysis to a completed ad that has none |
| Refinement.AbandonSound | internal/processor/queue.go:368-375 | an expired ad out of attempts fails only if it is still processing |
| Refinement.ReturnSound | internal/processor/queue.go:376-386 | an expired ad with attempts left is requeued only from processing |
| Refinement.RequeueSound | internal/processor/queue.go:366-401 | whatever counts as expired, a step of the pass is one enabled event or none, and the push it goes on to is of a priority in range |
| Refinement.ReprioritySound | internal/processor/queue.go:532-546 | a pass writes only an ad that is still queued, with a priority in 1..priority |
| Runs.RunRefinesLifecycle | internal/processor/queue.go:101-409 | in every run each step submits one ad, moves one ad along one lifecycle edge in exactly the next version, changes one effective priority, or changes nothing |
| Runs.RunOnlyEvolves | internal/storage/memory/memory_store.go:80-110 | across any stretch of a run no ad is lost, versions and attempts never fall, equal versions mean equal records up to the effective priority, completed and failed are never left |
| Runs.RunRecordsAreConsistent | internal/domain/models/ad.go:106-144 | in every reachable state: completion time iff completed, analysis only if completed, error iff failed, queue time iff past submitted, worker iff attempted, and past submission 1 <= effective priority <= priority |
| Runs.RunAttemptsAreDeliveries | internal/processor/queue.go:214-221 | an ad's stored attempts equal the successful dequeues of it so far |
| Runs.RunClaimsAndFinishes | internal/processor/queue.go:186-198 | two claims of an ad are separated by a requeue of it, and no ad is finished twice |
| Provenance.LegalStoreIsAccounted | internal/domain/models/ad.go:88-138 | every stored submission, queue time, completion time and analysis is that of an event of the very ad |
| Provenance.StoredTimesAreRead | internal/processor/queue.go:123-126 | in every reachable state an ad's queue and completion times are instants the clock has shown |
| Provenance.StoredAnalysisIsReturned | internal/processor/queue.go:329-332 | in every reachable state a stored analysis is one the analyser returned to the thread that stored it, for a delivered copy of that very ad |
| Solo.SoloEnqueue | internal/processor/queue.go:111-133 | left alone below capacity, an enqueue leaves the ad queued now, at its own priority, in the next version |
| Solo.SoloRefusal | internal/processor/queue.go:117-119 | at capacity it ends and writes nothing |
| Solo.SoloLookup | internal/processor/queue.go:157-190 | a popped queued ad is claimed at the version fetched |
| Solo.SoloClaim | internal/processor/queue.go:190-226 | left alone, the two writes of a claim deliver and store the ad processing, with this worker, one more attempt and two versions on |
| Solo.SoloComplete | internal/processor/queue.go:301-336 | left alone, a completion stores the ad completed now, with the analysis, two versions on |
| Solo.SoloRequeue | internal/processor/queue.go:376-403 | an expired ad with attempts left is queued in the next version, on a memory cache at its own priority |
| Solo.SoloAbandon | internal/processor/queue.go:368-375 | one without attempts left has failed, in the next version; an ad that has not expired is skipped |
| Solo.SoloAging | internal/processor/queue.go:506-555 | the aging pass leaves a queued ad at its computed priority, in the next version exactly if that is another |
| Solo.SoloBoost | internal/processor/queue.go:576-617 | the boost pass leaves it at 1, in the next version, exactly if it has waited longer than the maximum |
| Solo.DequeueRetries | internal/processor/queue.go:158-198 | what sends a dequeue back to the cache and what ends it, on either path; none of it writes anything |
| Solo.CompleteRefusals | internal/processor/queue.go:306-319 | without the lease, or of an ad not processing at that version, a completion ends and writes nothing |
| Solo.PassesSkipChangedAds | internal/processor/queue.go:382-386 | an ad that has changed since it was listed is skipped by every pass |
| Solo.AnswersAreFollowed | internal/processor/queue.go:154-254 | how a popped ID, the repository's choice and an analysis, or their absence, are followed; none of it writes anything |
| Solo.SubmissionSaves | internal/service/ad_service.go:64-79 | a submission stores a new ad, field by field, with a priority of zero or less turned into 5 |
| Solo.PassesTakeAHundred | internal/processor/queue.go:500 | a pass works through the first hundred of its newest-first listing, in order |
| Lifecycle.EventEffect | internal/processor/queue.go:101-409 | an event moves its ad along one edge, in a new version unless it is a push, and touches no other ad |
| Lifecycle.LegalStoreIsConsistent | internal/domain/models/ad.go:106-144 | replaying any legal log of events leaves consistent records |
| Lifecycle.ExpiryGuardIsNeverTrue | internal/processor/queue.go:364-366 | no reachable ad satisfies the expiry guard |
| Lifecycle.AttemptsCountDeliveries | internal/processor/queue.go:279-283 | replaying a log, attempts are the deliveries in it |
| Lifecycle.ClaimsAreSeparatedByRequeues | internal/processor/queue.go:253-268 | between two successful claims of an ad there is a requeue of it |
| Lifecycle.AtMostOneFinish | internal/processor/queue.go:313-319 | at most one completion of an ad ever succeeds |
| Fencing.OnlyTheLatestDeliveryCompletes | internal/processor/queue.go:312-319 | the version is a fencing token: whoever finishes an ad holds its latest delivery, with no versioned write of the ad since, whatever the leases did |
| Commit.TwoPhaseWritesCommit | internal/processor/queue.go:190-221 | in timely runs, which need not be coded ones, after the status swap of a claim or completion the Get returns what was swapped (up to a push) and the Update cannot conflict |
| Commit.AttemptsAreBounded | internal/processor/queue.go:368-386 | in timely runs, which need not be coded ones, attempts never exceed the maximum, and a queued ad has some left |
| CodedExpiry.CodedRunsAreTimely | internal/processor/queue.go:364-366 | with the guard as written, no expiry ever interrupts a claim |
| CodedExpiry.CodedWritesCommit | internal/processor/queue.go:190-221 | so in every run of the code as it is, two-phase writes commit |
| CodedExpiry.NoAdReturns | internal/processor/queue.go:363-404 | so no ad is ever requeued or given up |
| CodedExpiry.DeliveriesFollowClaims | internal/processor/queue.go:190-221 | in timely runs every delivery directly follows the claim of its own thread, with no write to the ad between |
| CodedExpiry.OneAttemptPerAd | internal/processor/queue.go:214-221 | so no ad is ever tried twice, whatever the maximum, and attempts keep to their bound without further condition |
| CodedExpiry.CodedOvershoot | internal/processor/queue.go:111-129 | nothing comes back past the check either, so k racing enqueues bound the queue by capacity - 1 + k |
| Stranded.CarrierIsAlone | internal/processor/worker.go:163-189 | with the guard as written, while a worker holds a delivered ad nobody else holds or is claiming it |
| Stranded.CarriedIsProcessing | internal/processor/worker.go:163-189 | and the ad is processing |
| Stranded.StrandedForGood | internal/processor/queue.go:363-406 | an ad that is processing while nobody holds or is claiming it stays so for ever |
| Stranded.AbandonedAdStaysProcessing | internal/processor/worker.go:173-189 | so an ad whose analysis, lease or completion fails once is processing for ever |
| EarlyExpiry.AttemptsBoundedExactlyWhenClaimsFit | internal/processor/queue.go:200-221 | in every run, whatever expiry does, attempts stay bounded at all times if and only if a guard the claimant could test before its Update holds of every copy it writes back: one more attempt is allowed, and another if the ad is queued again |
| EarlyExpiry.ExpiryInsideAClaimBreaksTheBound | internal/processor/queue.go:377-386 | if the expiry guard could hold: a run in which a requeue between the two writes of a claim makes the claimant read another record and leaves the ad queued with its attempts used up |
| Conservation.ProcessedAccountsForEveryAnalysis | internal/processor/worker.go:168-193 | over all workers ever started, the processed counters plus the completions written but not yet counted equal the ads with an analysis, and no ad is counted twice |
| Capacity.QueueOvershoot | internal/processor/queue.go:111-129 | with at most k enqueues past the check at once the queue holds at most capacity - 1 + k ads, plus one for each requeue |
| Capacity.SequentialCapacity | internal/processor/queue.go:111-120 | enqueues that do not race, and no requeue: the queue never exceeds its capacity |
| Overshoot.CapacityHoldsExactlyWhenEntriesFit | internal/processor/queue.go:111-129 | in every run the queue keeps to its capacity if and only if every write that enters it is made while the queue is below capacity |
| Overshoot.OvershootIsReached | internal/processor/queue.go:111-129 | for every capacity and every k there is a run of k racing enqueues that ends with capacity - 1 + k queued ads, so the bound is the best there is |
| Queue.DistributedPriorityQueue.Enqueue | internal/processor/queue.go:102-142 | refuses when closed, full, unknown or outdated, and then stores nothing, though an unknown or outdated ad is left marked as queued in the caller's hands; otherwise, field by field, the ad is stored as queued now, at its own priority, in the next version, and offered to the cache |
| Queue.DistributedPriorityQueue.PopFromCache | internal/processor/queue.go:154-155 | the least cached ID, removed from Redis but not from the memory store; fails exactly when there is none |
| Queue.DistributedPriorityQueue.Claim | internal/processor/queue.go:186-221 | fails without effect unless the ad is queued at this version; otherwise, field by field, it is processing, with this worker, one more attempt and two versions on |
| Queue.DistributedPriorityQueue.TryPopped | internal/processor/queue.go:157-227 | a popped entry is skipped unless it is stored as queued and free; the lease is taken exactly when the stored ad is processable and free |
| Queue.DistributedPriorityQueue.ClaimChoice | internal/processor/queue.go:242-293 | reports the chosen ad locked and changes nothing, or takes its lease and claims it |
| Queue.DistributedPriorityQueue.DequeueFromStore | internal/processor/queue.go:230-294 | claims the repository's first choice, reports it locked, or reports the queue empty |
| Queue.DistributedPriorityQueue.Dequeue | internal/processor/queue.go:145-294 | on any store, leases and cache, a call that comes back leaves the store, leases, cache, error and ad of `Search` over the IDs popped; with Redis it always comes back, as every retry uses up a cached entry; a call on a memory cache that does not has popped only leased ads and changed nothing |
| DequeueSearch.SearchFinds | internal/processor/queue.go:154-268 | the ad delivered is the first popped one that is stored as queued and free, else the repository's minimum; exactly that record changes, and only on success |
| DequeueSearch.SearchDelivers | internal/processor/queue.go:201-226 | the ad delivered, and the record stored, is the queued one made processing, with this worker, one more attempt and two versions on, and no other ad changes |
| DequeueSearch.DequeueMeaning | internal/processor/queue.go:230-251 | empty is reported exactly when nothing is queued; only a stored, queued and free ad is ever delivered, so stale cache entries are only hints |
| DequeueSearch.SearchPops | internal/processor/queue.go:154-182 | the tried IDs came off the cache in score order and are gone from it; the slow path is reached only with an empty cache |
| DequeueSearch.SearchLeases | internal/processor/queue.go:174-183 | afterwards every lease taken on the way is released, and only a slow-path delivery keeps one |
| DequeueSearch.LeasedOfferComesBack | internal/processor/queue.go:173-182 | on a memory cache a popped ad is skipped exactly if another owner's lease on it is live, and then nothing has changed and it is first in line again |
| DequeueSearch.MemorySearchEndsExactlyWhen | internal/processor/queue.go:154-182 | on a memory cache a search can end exactly if nothing is queued or some first choice is free |
| Queue.DistributedPriorityQueue.Complete | internal/processor/queue.go:297-340 | exactly a processing ad at the delivered version becomes, field by field, completed now with this analysis, two versions on, and the lease is given back; with another owner's lease nothing changes |
| Queue.DistributedPriorityQueue.StoreAnalysis | internal/processor/queue.go:316-336 | the swap decides: it fails without effect, or the ad is completed now with the analysis, two versions on |
| Queue.DistributedPriorityQueue.UpdateQueuePriorities | internal/processor/queue.go:498-558 | ages the newest hundred queued ads, returns the number of ads it put in a new version, and caches exactly those, at their new stored priority |
| Queue.DistributedPriorityQueue.BoostLowPriorityItems | internal/processor/queue.go:561-621 | the same for the boost pass; a closed queue is refused |
| Queue.DistributedPriorityQueue.RequeueExpired | internal/processor/queue.go:344-409 | of the newest hundred processing ads exactly the expired are failed or requeued, exactly the requeued are counted and cached at their own priority, and nothing else changes; a closed queue is refused |
| Queue.DistributedPriorityQueue.ReturnToQueue | internal/processor/queue.go:377-403 | requeues only an ad still processing at the listed version, and then pushes it at its original priority |
| Queue.DistributedPriorityQueue.Fail | internal/processor/queue.go:368-375 | fails an ad only at the listed version, with the error text and no timestamp |
| Queue.DistributedPriorityQueue.Raise | internal/processor/queue.go:525-552 | a new effective priority is written and pushed only if the version is the listed one |
| Queue.DistributedPriorityQueue.Size | internal/processor/queue.go:412-414 | the number of queued ads |
| Maintenance.AgingReachesEveryQueuedAd | internal/processor/queue.go:498-558 | with at most 100 queued ads, aging leaves each at its computed priority, in a new version exactly if it changed, and changes nothing else |
| Maintenance.AgingIsIdempotent | internal/processor/queue.go:518-552 | run again at the same instant, aging changes nothing and returns 0 |
| Maintenance.BoostReachesExactlyTheOverdue | internal/processor/queue.go:582-615 | with at most 100 queued ads, exactly those waiting too long go to priority 1; all others are untouched |
| Maintenance.BoostIsKeptExactlyWhen | internal/processor/queue.go:518-537 | the next aging pass leaves a boosted ad at 1 if and only if P - floor(P * rate) is at most 1 |
| Maintenance.DefaultRateUndoesBoosts | internal/processor/queue.go:63 | at the default rate it undoes every boost of an ad with a priority number above 2 |
| Maintenance.PassMeaning | internal/processor/queue.go:505-557 | ad by ad, a pass adds up to rewriting exactly the listed ads whose wanted priority differs, and returns their number |
| Maintenance.ExpiryMeaning | internal/processor/queue.go:363-406 | the expiry pass fails or requeues exactly the expired ads of its page |
| Maintenance.ExpiryReachesExactlyTheExpired | internal/processor/queue.go:362-404 | with at most 100 processing ads, field by field: exactly the expired ads fail or are requeued, by their attempts, and all others are untouched |
| Maintenance.ExpiryCounts | internal/processor/queue.go:362-408 | it returns the number of ads requeued, not of those failed |
| Maintenance.ExpiryRepushes | internal/processor/queue.go:395-397 | it caches exactly the ads requeued, each at its own priority |
| Maintenance.ExpiryNeverFires | internal/processor/queue.go:366 | on every reachable store the pass changes nothing and returns 0 |
| Drain.DrainQueue | internal/processor/queue.go:154-227 | on a memory store with no queued ad leased elsewhere, dequeuing until empty at any instants in order returns every queued ad exactly once, by urgency then age, each with this worker and one more attempt, and leaves none queued |
| Drain.DrainedStep | internal/storage/memory/memory_store.go:403-429 | delivering a least queued ad next keeps what was delivered sorted and ahead of what is left |
| AdService.Service.SubmitAd | internal/service/ad_service.go:58-97 | fails only without an ID; otherwise, field by field, the ad is saved as submitted now at version 1 with no attempts, and then queued and cached unless the queue refuses, which the caller is not told |
| AdService.Service.ListAds | internal/service/ad_service.go:130-172 | clamped limits; one status gives one page of it, no status joins the pages of the statuses in turn until there are enough |
| AdService.ListingIsUnique | internal/storage/memory/memory_store.go:128-131 | with distinct creation times there is only one newest-first list |
| AdService.ConsecutivePagesJoin | internal/storage/memory/memory_store.go:113-144 | the answers to consecutive calls, each sorted afresh, join to the newest-first list of the status without gap or repeat, and enough of them to all of it |
| AdService.ListAllIsTheJoinedPrefix | internal/service/ad_service.go:147-171 | from the start, an unfiltered listing is the first n of all full per-status lists joined, despite cutting and stopping early |
| AdService.ListAllGoesByStatus | internal/service/ad_service.go:151-157 | an unfiltered listing goes by status: submitted, queued, processing, completed, failed |
| AdService.ListAllLength | internal/service/ad_service.go:159-171 | from the start it has as many ads as asked for, or all there are |
| AdService.ListAllIsAPageExactlyWhenSafe | internal/service/ad_service.go:159-171 | from any offset, an unfiltered listing is that page of the joined lists if and only if the number of ads per status meets a condition a caller can check first |
| AdService.SecondAdIsOnNoPage | internal/service/ad_service.go:160-164 | with one submitted and one queued ad and pages of one, no answer at any offset holds the queued ad |
| WorkerPool.PoolStaysWithinLimits | internal/processor/worker.go:285-376 | after one start, no sequence of additions, removals and scaler ticks takes the pool out of its limits |
| WorkerPool.ScalerSettles | internal/processor/worker.go:425-456 | under a constant queue size ticks move the pool one way only, and change it at most max - min times |
| WorkerPool.ScalerFillsThePool | internal/processor/worker.go:426-433 | a queue that stays above target gains one worker a tick until the pool is full |
| WorkerPool.WorkersRunExactlyWithoutWaiting | internal/processor/worker.go:353-376 | after one start, all workers of the pool run at all times if and only if no removal that waits is ever accepted |
| WorkerPool.RunningStaysWithinLimits | internal/processor/worker.go:285-376 | after one start, without a removal that waits, the workers that run stay within the limits |
| WorkerPool.LimitsBoundRunningExactlyWhenStopsAreSafe | internal/processor/worker.go:362-364 | from any pool within its limits with enough workers running, the limits bound the number that run at all times if and only if every removal or scaler drop of a running worker is made while more than the minimum run |
| WorkerPool.StoppedWorkersStillCount | internal/processor/worker.go:353-376 | in any pool above its minimum, removals that wait can stop everybody, and the pool keeps its size |
| WorkerPool.Workers.Start | internal/processor/worker.go:285-310 | the minimum number of workers, all running |
| WorkerPool.Workers.AddWorker | internal/processor/worker.go:334-350 | refuses at the maximum, otherwise one more running worker and no other change |
| WorkerPool.Workers.RemoveWorker | internal/processor/worker.go:353-376 | refuses an unknown worker and at the minimum; otherwise stops it, and drops it unless asked to wait |
| WorkerPool.TickAddsExactlyAboveTarget | internal/processor/worker.go:426-433 | a tick adds a worker if and only if the queue is above its target and the pool below its maximum |
| WorkerPool.TickDropsExactlyBelowHalf | internal/processor/worker.go:436-455 | with an idle worker above the minimum, a tick drops it if and only if 2 * size + 2 is at most the target, and between that and the target it leaves the pool alone |
| WorkerPool.AdditionAdds | internal/processor/worker.go:338-348 | below the maximum an addition adds one running worker |
| WorkerPool.RemovalRemoves | internal/processor/worker.go:362-373 | above the minimum a removal drops its worker or, waiting, stops and keeps it, and touches no other |
| WorkerPool.Workers.ScalerTick | internal/processor/worker.go:416-458 | adds one worker above target, or stops and drops one worker without jobs below half of it, within the limits; none is dropped only if all are busy |
| WorkerPool.Workers.Stop | internal/processor/worker.go:313-331 | stops every worker; without waiting the pool is emptied |

## Left out

- HTTP handlers, middleware, DTO mapping, logging, metrics, configuration and commands: input, output and field copying.
- Redis beyond the sorted set used as a queue: JSON, expiry times and network errors are not modelled. Kafka and RabbitMQ clients likewise.
- The deployment in which every process has its own memory repository but shares Redis: one shared repository is modelled, as the `Repository` interface intends.
- `GetAd` and the cache's `Set`, and `Save` over an existing ID inside the interleaved model: they overwrite records without looking at the version, so none of the theorems about runs would survive them.
- `BatchUpdateStatus`, `AssignToWorker`, `ReleaseWorkerAssignments`, `DeleteOlderThan`, `Delete`: no queue code calls them.
- `Analyzer.Analyze`, processing times and tickers: any result, at any step.
- Liveness and freedom from starvation: the code does not support them. Expiry never fires, an aging pass undoes boosts (`Maintenance.BoostIsKeptExactlyWhen`), and a pass sees only the newest hundred queued ads.
- The retry helpers: they keep calling after success and hold no useful contract.
- Nil ads, statuses other than the five, and the wording of error messages: an error is modelled by its kind.
- Aliasing with a caller's own ad: `Enqueue` and `SubmitAd` require that the caller's object is not one the store holds, which the store guarantees by copying.
- Queue.DistributedPriorityQueue.Dequeue: on a memory cache it follows at most `patience` retries past leased ads and then reports that the call is still trying, since the code's own retries need not end (`DequeueSearch.LeasedOfferComesBack`); all retries of one call happen at one instant.
- Memory.MemoryRepository.FindByStatus: returns values instead of fresh objects, since no other code can reach those objects; the same holds for `FindByPriority`.
- Models.Ad.SetStatus: the ad's fields are one record assigned field by field, so two methods writing different fields of one ad at once are not modelled.
- Queue.DistributedPriorityQueue.Claim: the two paths of `Dequeue` make the same calls after the lease and share this member; the lease a failed slow-path swap gives back is not reached when one call runs alone, and is arbitrary in the interleaved model.
- WorkerPool.Workers.ScalerTick: a tick whose queue size cannot be read does nothing and is not a move.
- WorkerPool.Workers.Stop: a second call, which closes a closed channel, is not modelled.
- WorkerPool.Workers.Start: a worker that cannot start does not occur, because every worker is new.
- Memory.SortSlice: stands for the library's sort, with its order and permutation and no promise about ties.
