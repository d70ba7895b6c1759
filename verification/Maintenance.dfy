/**
 The maintenance passes of internal/processor/queue.go on values: what one uninterrupted
 pass does to each ad of its page, and what that adds up to.
 */
module Maintenance {
  import opened Models
  import opened Store
  import opened Lifecycle
  import opened Protocol
  import AgingLaws = Aging

  ghost function PageIds(page: seq<Record>): set<string> {
    set i | 0 <= i < |page| :: page[i].adId
  }

  // ---------- aging and boosting ----------

  /** What a priority pass leaves of one ad of its page. */
  function Passed(cfg: Config, pass: Pass, ad: Record, now: int): Record
    requires cfg.Valid()
  {
    var wanted := WantedPriority(cfg, pass, ad, now);
    if wanted.None? then ad else NextVersion(ad.(effectivePriority := wanted.value))
  }

  ghost function PassStore(cfg: Config, pass: Pass, s: Ads, page: seq<Record>, now: int): Ads
    requires cfg.Valid()
  {
    map id | id in s :: if id in PageIds(page) then Passed(cfg, pass, s[id], now) else s[id]
  }

  /** The ads a pass wrote: those in a new version. */
  ghost function Rewritten(s: Ads, s': Ads): set<string> {
    set id | id in s && id in s' && s'[id].version != s[id].version
  }

  /** The cached scores after these ads have been pushed at their stored effective priority. */
  ghost function Repushed(s: Ads, scores: map<string, int>, ids: set<string>): map<string, int>
    requires ids <= s.Keys
  {
    map id | id in scores.Keys + ids :: if id in ids then s[id].effectivePriority else scores[id]
  }

  /** page is the newest ads of one status, as a pass fetches them. */
  ghost predicate IsPage(s: Ads, status: AdStatus, full: seq<Record>, page: seq<Record>) {
    Listing(s, status, NewestFirst, full) && page == Page(full, PAGE_SIZE, 0)
  }

  /** What a pass has done so far: the store, the cached scores and its count. */
  datatype Progress = Progress(stored: Ads, scores: map<string, int>, count: nat)

  /** One ad of the page: rewritten and re-pushed if the pass wants another priority for it. */
  function PassOne(cfg: Config, pass: Pass, redis: bool, p: Progress, ad: Record, now: int): Progress
    requires cfg.Valid()
  {
    var wanted := WantedPriority(cfg, pass, ad, now);
    if wanted.None? then p
    else Progress(p.stored[ad.adId := Passed(cfg, pass, ad, now)],
                  if redis then p.scores[ad.adId := wanted.value] else p.scores,
                  p.count + 1)
  }

  function PassFirst(cfg: Config, pass: Pass, redis: bool, p: Progress, page: seq<Record>, n: nat, now: int): Progress
    requires cfg.Valid() && n <= |page|
  {
    if n == 0 then p
    else PassOne(cfg, pass, redis, PassFirst(cfg, pass, redis, p, page, n - 1, now), page[n - 1], now)
  }

  ghost predicate ListedIn(s: Ads, page: seq<Record>) {
    DistinctIds(page) && forall i | 0 <= i < |page| :: page[i].adId in s && s[page[i].adId] == page[i]
  }

  lemma ListingIsListed(s: Ads, status: AdStatus, full: seq<Record>, page: seq<Record>)
    requires IsPage(s, status, full, page)
    ensures ListedIn(s, page)
  {
  }

  /** When its turn comes, an ad is still as it was listed. */
  lemma {:induction false} PassKeepsOthers(cfg: Config, pass: Pass, redis: bool, p: Progress, page: seq<Record>, n: nat, now: int)
    requires cfg.Valid() && n <= |page| && ListedIn(p.stored, page)
    ensures var q := PassFirst(cfg, pass, redis, p, page, n, now);
      && q.stored.Keys == p.stored.Keys
      && forall i | n <= i < |page| :: page[i].adId in q.stored && q.stored[page[i].adId] == page[i]
  {
    if n > 0 {
      PassKeepsOthers(cfg, pass, redis, p, page, n - 1, now);
    }
  }

  lemma {:induction false} PassRewritesStore(cfg: Config, pass: Pass, redis: bool, p: Progress, page: seq<Record>, n: nat, now: int)
    requires cfg.Valid() && n <= |page| && ListedIn(p.stored, page)
    ensures PassFirst(cfg, pass, redis, p, page, n, now).stored == PassStore(cfg, pass, p.stored, page[..n], now)
  {
    if n == 0 {
      assert PageIds(page[..0]) == {};
    } else {
      PassRewritesStore(cfg, pass, redis, p, page, n - 1, now);
      PassKeepsOthers(cfg, pass, redis, p, page, n - 1, now);
      PageGrows(page, n - 1);
    }
  }

  lemma PageGrows(page: seq<Record>, n: nat)
    requires n < |page|
    ensures PageIds(page[..n + 1]) == PageIds(page[..n]) + {page[n].adId}
  {
    forall id | id in PageIds(page[..n + 1]) ensures id in PageIds(page[..n]) + {page[n].adId} {
      var i :| 0 <= i <= n && page[..n + 1][i].adId == id;
      if i < n { assert page[..n][i].adId == id; }
    }
    forall id | id in PageIds(page[..n]) ensures id in PageIds(page[..n + 1]) {
      var i :| 0 <= i < n && page[..n][i].adId == id;
      assert page[..n + 1][i].adId == id;
    }
    assert page[..n + 1][n].adId == page[n].adId;
  }

  /** What is wanted of the ads of a page. */
  ghost function WantedIds(cfg: Config, pass: Pass, page: seq<Record>, now: int): set<string>
    requires cfg.Valid()
  {
    set i | 0 <= i < |page| && WantedPriority(cfg, pass, page[i], now).Some? :: page[i].adId
  }

  lemma WantedGrow(cfg: Config, pass: Pass, page: seq<Record>, n: nat, now: int)
    requires cfg.Valid() && n < |page| && DistinctIds(page)
    ensures var before, after := WantedIds(cfg, pass, page[..n], now), WantedIds(cfg, pass, page[..n + 1], now);
      && page[n].adId !in before
      && after == before + if WantedPriority(cfg, pass, page[n], now).Some? then {page[n].adId} else {}
  {
    var before, after := WantedIds(cfg, pass, page[..n], now), WantedIds(cfg, pass, page[..n + 1], now);
    forall id | id in after ensures id in before || (id == page[n].adId && WantedPriority(cfg, pass, page[n], now).Some?) {
      var i :| 0 <= i <= n && WantedPriority(cfg, pass, page[..n + 1][i], now).Some? && page[..n + 1][i].adId == id;
      if i < n { assert page[..n][i].adId == id; }
    }
    forall id | id in before ensures id in after {
      var i :| 0 <= i < n && WantedPriority(cfg, pass, page[..n][i], now).Some? && page[..n][i].adId == id;
      assert page[..n + 1][i].adId == id;
    }
    assert page[..n + 1][n] == page[n];
  }

  /** The wanted ads are exactly those the pass puts in a new version. */
  lemma WantedAreRewritten(cfg: Config, pass: Pass, s: Ads, page: seq<Record>, now: int)
    requires cfg.Valid() && ListedIn(s, page)
    ensures WantedIds(cfg, pass, page, now) == Rewritten(s, PassStore(cfg, pass, s, page, now))
  {
    forall id | id in Rewritten(s, PassStore(cfg, pass, s, page, now)) ensures id in WantedIds(cfg, pass, page, now) {
      var i :| 0 <= i < |page| && page[i].adId == id;
      assert s[id] == page[i];
    }
    forall id | id in WantedIds(cfg, pass, page, now) ensures id in Rewritten(s, PassStore(cfg, pass, s, page, now)) {
      var i :| 0 <= i < |page| && WantedPriority(cfg, pass, page[i], now).Some? && page[i].adId == id;
      assert s[id] == page[i] && id in PageIds(page);
    }
  }

  lemma WantedCount(cfg: Config, pass: Pass, page: seq<Record>, n: nat, now: int)
    requires cfg.Valid() && n < |page| && DistinctIds(page)
    ensures |WantedIds(cfg, pass, page[..n + 1], now)| ==
      |WantedIds(cfg, pass, page[..n], now)| + if WantedPriority(cfg, pass, page[n], now).Some? then 1 else 0
  {
    WantedGrow(cfg, pass, page, n, now);
  }

  lemma {:induction false} PassCounts(cfg: Config, pass: Pass, redis: bool, p: Progress, page: seq<Record>, n: nat, now: int)
    requires cfg.Valid() && n <= |page| && DistinctIds(page)
    ensures PassFirst(cfg, pass, redis, p, page, n, now).count == p.count + |WantedIds(cfg, pass, page[..n], now)|
  {
    if n == 0 {
      assert WantedIds(cfg, pass, page[..0], now) == {};
    } else {
      PassCounts(cfg, pass, redis, p, page, n - 1, now);
      WantedCount(cfg, pass, page, n - 1, now);
    }
  }

  lemma RepushedOneMore(s: Ads, scores: map<string, int>, ids: set<string>, id: string)
    requires ids <= s.Keys && id in s
    ensures Repushed(s, scores, ids + {id}) == Repushed(s, scores, ids)[id := s[id].effectivePriority]
  {
  }

  lemma RepushedGrow(cfg: Config, pass: Pass, s: Ads, s': Ads, scores: map<string, int>, page: seq<Record>, n: nat, now: int)
    requires cfg.Valid() && n < |page| && ListedIn(s, page) && s' == PassStore(cfg, pass, s, page, now)
    requires WantedIds(cfg, pass, page[..n], now) <= s'.Keys
    ensures WantedIds(cfg, pass, page[..n + 1], now) <= s'.Keys
    ensures var wanted := WantedPriority(cfg, pass, page[n], now);
      var before := Repushed(s', scores, WantedIds(cfg, pass, page[..n], now));
      Repushed(s', scores, WantedIds(cfg, pass, page[..n + 1], now)) ==
      if wanted.Some? then before[page[n].adId := wanted.value] else before
  {
    WantedGrow(cfg, pass, page, n, now);
    assert page[n].adId in PageIds(page) && s'[page[n].adId] == Passed(cfg, pass, page[n], now);
    RepushedOneMore(s', scores, WantedIds(cfg, pass, page[..n], now), page[n].adId);
  }

  /** s' is the store after the whole pass: the priority pushed for an ad is the one it ends with. */
  lemma {:induction false} PassRepushes(cfg: Config, pass: Pass, p: Progress, page: seq<Record>, s': Ads, n: nat, now: int)
    requires cfg.Valid() && n <= |page| && ListedIn(p.stored, page) && s' == PassStore(cfg, pass, p.stored, page, now)
    ensures WantedIds(cfg, pass, page[..n], now) <= s'.Keys
    ensures PassFirst(cfg, pass, true, p, page, n, now).scores == Repushed(s', p.scores, WantedIds(cfg, pass, page[..n], now))
  {
    if n == 0 {
      assert WantedIds(cfg, pass, page[..0], now) == {};
    } else {
      PassRepushes(cfg, pass, p, page, s', n - 1, now);
      RepushedGrow(cfg, pass, p.stored, s', p.scores, page, n - 1, now);
    }
  }

  lemma {:induction false} PassKeepsScores(cfg: Config, pass: Pass, p: Progress, page: seq<Record>, n: nat, now: int)
    requires cfg.Valid() && n <= |page|
    ensures PassFirst(cfg, pass, false, p, page, n, now).scores == p.scores
  {
    if n > 0 {
      PassKeepsScores(cfg, pass, p, page, n - 1, now);
    }
  }

  /**
   Ad by ad, a pass adds up to this: the listed ads are as Passed says, it counts the ads it
   put in a new version, and it caches exactly those, at their new stored priority.
   */
  lemma PassMeaning(cfg: Config, pass: Pass, redis: bool, p: Progress, page: seq<Record>, now: int)
    requires cfg.Valid() && ListedIn(p.stored, page)
    ensures var s' := PassStore(cfg, pass, p.stored, page, now);
      PassFirst(cfg, pass, redis, p, page, |page|, now) ==
      Progress(s', if redis then Repushed(s', p.scores, Rewritten(p.stored, s')) else p.scores,
               p.count + |Rewritten(p.stored, s')|)
  {
    assert page[..|page|] == page;
    PassRewritesStore(cfg, pass, redis, p, page, |page|, now);
    PassCounts(cfg, pass, redis, p, page, |page|, now);
    WantedAreRewritten(cfg, pass, p.stored, page, now);
    if redis {
      PassRepushes(cfg, pass, p, page, PassStore(cfg, pass, p.stored, page, now), |page|, now);
    } else {
      PassKeepsScores(cfg, pass, p, page, |page|, now);
    }
  }

  // ---------- a page that covers the queue ----------


  lemma {:induction false} DistinctIdsCount(xs: seq<Record>)
    requires DistinctIds(xs)
    ensures |PageIds(xs)| == |xs|
  {
    if xs == [] {
      assert PageIds(xs) == {};
    } else {
      var n := |xs| - 1;
      DistinctIdsCount(xs[..n]);
      assert xs[..n + 1] == xs;
      PageGrows(xs, n);
      assert forall i | 0 <= i < n :: xs[..n][i].adId == xs[i].adId != xs[n].adId;
      assert xs[n].adId !in PageIds(xs[..n]);
    }
  }

  /** A listing names exactly the ads of its status. */
  lemma ListingIds(s: Ads, status: AdStatus, full: seq<Record>)
    requires WellKeyed(s) && Enumerates(s, status, full)
    ensures PageIds(full) == IdsWith(s, status) && |full| == |IdsWith(s, status)|
  {
    forall id | id in IdsWith(s, status) ensures id in PageIds(full) {
      assert s[id] in full;
      var i :| 0 <= i < |full| && full[i] == s[id];
      assert full[i].adId == id;
    }
    DistinctIdsCount(full);
  }

  /** With at most a page of queued ads, a pass sees them all. */
  lemma PageCoversQueue(s: Ads, full: seq<Record>, page: seq<Record>)
    requires WellKeyed(s) && IsPage(s, Queued, full, page) && |IdsWith(s, Queued)| <= 100
    ensures page == full && PageIds(page) == IdsWith(s, Queued)
  {
    ListingIds(s, Queued, full);
  }

  /**
   An uninterrupted aging pass over at most a page of queued ads leaves every one of them
   at its computed priority and changes nothing else but their versions.
   */
  lemma AgingReachesEveryQueuedAd(cfg: Config, s: Ads, full: seq<Record>, page: seq<Record>, now: int, id: string)
    requires cfg.Valid() && WellKeyed(s) && IsPage(s, Queued, full, page) && |IdsWith(s, Queued)| <= 100
    requires id in s
    ensures var ad, ad' := s[id], PassStore(cfg, Aging, s, page, now)[id];
      && (ad.status == Queued && ad.queuedAt.Some? ==>
            && ad'.effectivePriority == ad.ComputedPriority(cfg.agingRate, cfg.maxWaitTime, now)
            && ad'.version == ad.version + (if ad'.effectivePriority != ad.effectivePriority then 1 else 0))
      && ad'.(effectivePriority := ad.effectivePriority, version := ad.version) == ad
      && (ad.status != Queued ==> ad' == ad)
  {
    PageCoversQueue(s, full, page);
    assert id in PageIds(page) <==> s[id].status == Queued;
  }

  /** An uninterrupted boost pass puts exactly the ads that waited too long at priority 1. */
  lemma BoostReachesExactlyTheOverdue(cfg: Config, s: Ads, full: seq<Record>, page: seq<Record>, now: int, id: string)
    requires cfg.Valid() && WellKeyed(s) && IsPage(s, Queued, full, page) && |IdsWith(s, Queued)| <= 100
    requires id in s
    ensures var ad, ad' := s[id], PassStore(cfg, Boosting, s, page, now)[id];
      var overdue := ad.status == Queued && ad.queuedAt.Some? && now - ad.queuedAt.value > cfg.maxWaitTime;
      if overdue then ad' == ad.(effectivePriority := 1, version := ad.version + 1) else ad' == ad
  {
    PageCoversQueue(s, full, page);
    assert id in PageIds(page) <==> s[id].status == Queued;
  }

  /** A boost survives the next aging pass exactly if aging alone would by then have taken the ad to the top. */
  lemma BoostIsKeptExactlyWhen(cfg: Config, ad: Record, now: int, later: int)
    requires cfg.Valid() && ad.status == Queued && ad.queuedAt.Some? && ad.submission.priority >= 1
    requires ad.HasExceededMaxWaitTime(cfg.maxWaitTime, now) && now <= later
    ensures var p, boosted := ad.submission.priority, Passed(cfg, Boosting, ad, now);
      && boosted.effectivePriority == 1
      && (Passed(cfg, Aging, boosted, later).effectivePriority == 1 <==> p - (p as real * cfg.agingRate).Floor <= 1)
  {
    AgingLaws.AgedPrioritySaturates(ad.submission.priority, ad.WaitingTime(later), cfg.agingRate, cfg.maxWaitTime);
  }

  /** At the default rate every boost of an ad with a priority number above 2 is undone. */
  lemma DefaultRateUndoesBoosts(cfg: Config, ad: Record, now: int, later: int)
    requires cfg.Valid() && ad.status == Queued && ad.queuedAt.Some? && ad.submission.priority >= 1
    requires ad.HasExceededMaxWaitTime(cfg.maxWaitTime, now) && now <= later && cfg.agingRate == 0.5
    ensures Passed(cfg, Aging, Passed(cfg, Boosting, ad, now), later).effectivePriority == 1 <==> ad.submission.priority <= 2
  {
    BoostIsKeptExactlyWhen(cfg, ad, now, later);
    var half := (ad.submission.priority as real * 0.5).Floor;
    assert 2 * half <= ad.submission.priority <= 2 * half + 1;
  }

  lemma AgedIsStable(cfg: Config, ad: Record, now: int)
    requires cfg.Valid() && ad.status == Queued
    ensures WantedPriority(cfg, Aging, Passed(cfg, Aging, ad, now), now).None?
  {
  }

  /** Run again at the same instant, the aging pass finds nothing to do and returns 0. */
  lemma AgingIsIdempotent(cfg: Config, s: Ads, full: seq<Record>, page: seq<Record>,
                          full': seq<Record>, page': seq<Record>, now: int)
    requires cfg.Valid() && WellKeyed(s) && IsPage(s, Queued, full, page) && |IdsWith(s, Queued)| <= 100
    requires var s' := PassStore(cfg, Aging, s, page, now); IsPage(s', Queued, full', page')
    ensures var s' := PassStore(cfg, Aging, s, page, now);
      PassStore(cfg, Aging, s', page', now) == s' && |Rewritten(s', PassStore(cfg, Aging, s', page', now))| == 0
  {
    var s' := PassStore(cfg, Aging, s, page, now);
    PageCoversQueue(s, full, page);
    forall i | 0 <= i < |full'| ensures WantedPriority(cfg, Aging, full'[i], now).None? {
      var id := full'[i].adId;
      assert s'[id] == full'[i] && s[id].status == Queued;
      AgedIsStable(cfg, s[id], now);
    }
    PassWithNothingToDo(cfg, Aging, s', page', now);
    assert Rewritten(s', s') == {};
  }

  lemma PassWithNothingToDo(cfg: Config, pass: Pass, s: Ads, page: seq<Record>, now: int)
    requires cfg.Valid() && ListedIn(s, page)
    requires forall i | 0 <= i < |page| :: WantedPriority(cfg, pass, page[i], now).None?
    ensures PassStore(cfg, pass, s, page, now) == s
  {
    forall id | id in s && id in PageIds(page) ensures Passed(cfg, pass, s[id], now) == s[id] {
      var i :| 0 <= i < |page| && page[i].adId == id;
    }
  }

  // ---------- expiry ----------

  /** What the expiry pass leaves of one ad of its page; a memory push also resets the urgency. */
  function Expired(cfg: Config, redis: bool, ad: Record, cutoff: int): Record {
    if !ad.HasExpired(cutoff) then ad
    else if ad.attempts >= cfg.maxAttempts then NextVersion(ad.WithError(MAX_ATTEMPTS_ERROR, 0))
    else
      var back := Swapped(ad, Queued, 0);
      if redis then back else back.(effectivePriority := ad.submission.priority)
  }

  /** Does the pass return this ad to the queue? */
  predicate Returns(cfg: Config, ad: Record, cutoff: int) {
    ad.HasExpired(cutoff) && ad.attempts < cfg.maxAttempts
  }

  function ExpireOne(cfg: Config, redis: bool, p: Progress, ad: Record, cutoff: int): Progress {
    if !ad.HasExpired(cutoff) then p
    else
      var back := Returns(cfg, ad, cutoff);
      Progress(p.stored[ad.adId := Expired(cfg, redis, ad, cutoff)],
               if redis && back then p.scores[ad.adId := ad.submission.priority] else p.scores,
               p.count + if back then 1 else 0)
  }

  function ExpireFirst(cfg: Config, redis: bool, p: Progress, page: seq<Record>, n: nat, cutoff: int): Progress
    requires n <= |page|
  {
    if n == 0 then p
    else ExpireOne(cfg, redis, ExpireFirst(cfg, redis, p, page, n - 1, cutoff), page[n - 1], cutoff)
  }

  lemma {:induction false} ExpiryKeepsOthers(cfg: Config, redis: bool, p: Progress, page: seq<Record>, n: nat, cutoff: int)
    requires n <= |page| && ListedIn(p.stored, page)
    ensures var q := ExpireFirst(cfg, redis, p, page, n, cutoff);
      && q.stored.Keys == p.stored.Keys
      && forall i | n <= i < |page| :: page[i].adId in q.stored && q.stored[page[i].adId] == page[i]
  {
    if n > 0 {
      ExpiryKeepsOthers(cfg, redis, p, page, n - 1, cutoff);
    }
  }

  ghost function ExpiryStore(cfg: Config, redis: bool, s: Ads, page: seq<Record>, cutoff: int): Ads {
    map id | id in s :: if id in PageIds(page) then Expired(cfg, redis, s[id], cutoff) else s[id]
  }

  /** The pass fails or returns exactly the expired ads of its page, and touches no other ad. */
  lemma {:induction false} ExpiryMeaning(cfg: Config, redis: bool, p: Progress, page: seq<Record>, n: nat, cutoff: int)
    requires n <= |page| && ListedIn(p.stored, page)
    ensures ExpireFirst(cfg, redis, p, page, n, cutoff).stored == ExpiryStore(cfg, redis, p.stored, page[..n], cutoff)
  {
    if n == 0 {
      assert PageIds(page[..0]) == {};
    } else {
      ExpiryMeaning(cfg, redis, p, page, n - 1, cutoff);
      ExpiryKeepsOthers(cfg, redis, p, page, n - 1, cutoff);
      PageGrows(page, n - 1);
    }
  }

  /** The ads of its page that the pass returns to the queue. */
  ghost function ReturnedIds(cfg: Config, s: Ads, page: seq<Record>, cutoff: int): set<string> {
    set id | id in s && id in PageIds(page) && Returns(cfg, s[id], cutoff)
  }

  /** The cached scores after it: every returned ad at its own priority again, the others as before. */
  ghost function ExpiryScores(cfg: Config, s: Ads, scores: map<string, int>, page: seq<Record>, cutoff: int): map<string, int> {
    Rescored(s, scores, ReturnedIds(cfg, s, page, cutoff))
  }

  ghost function Rescored(s: Ads, scores: map<string, int>, ids: set<string>): map<string, int>
    requires ids <= s.Keys
  {
    map id | id in scores.Keys + ids :: if id in ids then s[id].submission.priority else scores[id]
  }

  lemma RescoredOneMore(s: Ads, scores: map<string, int>, ids: set<string>, id: string)
    requires ids <= s.Keys && id in s
    ensures Rescored(s, scores, ids + {id}) == Rescored(s, scores, ids)[id := s[id].submission.priority]
  {
  }

  lemma ReturnedCount(cfg: Config, s: Ads, page: seq<Record>, n: nat, cutoff: int)
    requires n < |page| && ListedIn(s, page)
    ensures |ReturnedIds(cfg, s, page[..n + 1], cutoff)| ==
      |ReturnedIds(cfg, s, page[..n], cutoff)| + if Returns(cfg, page[n], cutoff) then 1 else 0
  {
    ReturnedGrows(cfg, s, page, n, cutoff);
  }

  /**
   With at most 100 processing ads, an uninterrupted pass fails exactly the expired ads
   without attempts left, requeues exactly the other expired ones, and touches no other ad.
   */
  lemma ExpiryReachesExactlyTheExpired(cfg: Config, redis: bool, s: Ads, full: seq<Record>, page: seq<Record>,
                                       cutoff: int, id: string)
    requires WellKeyed(s) && IsPage(s, Processing, full, page) && |IdsWith(s, Processing)| <= 100 && id in s
    ensures var ad, ad' := s[id], ExpiryStore(cfg, redis, s, page, cutoff)[id];
      var expired := ad.status == Processing && ad.processingStartedAt.Some? && ad.processingStartedAt.value < cutoff;
      if !expired then ad' == ad
      else if ad.attempts >= cfg.maxAttempts then
        ad' == ad.(status := Failed, error := "Exceeded maximum processing attempts", version := ad.version + 1)
      else if redis then ad' == ad.(status := Queued, version := ad.version + 1)
      else ad' == ad.(status := Queued, version := ad.version + 1, effectivePriority := ad.submission.priority)
  {
    ListingIds(s, Processing, full);
    assert id in PageIds(page) <==> s[id].status == Processing;
  }

  lemma ReturnedGrows(cfg: Config, s: Ads, page: seq<Record>, n: nat, cutoff: int)
    requires n < |page| && ListedIn(s, page)
    ensures page[n].adId !in ReturnedIds(cfg, s, page[..n], cutoff)
    ensures ReturnedIds(cfg, s, page[..n + 1], cutoff) ==
      ReturnedIds(cfg, s, page[..n], cutoff) + if Returns(cfg, page[n], cutoff) then {page[n].adId} else {}
  {
    PageGrows(page, n);
  }

  lemma ScoresGrow(cfg: Config, s: Ads, scores: map<string, int>, page: seq<Record>, n: nat, cutoff: int)
    requires n < |page| && ListedIn(s, page)
    ensures var before := ExpiryScores(cfg, s, scores, page[..n], cutoff);
      ExpiryScores(cfg, s, scores, page[..n + 1], cutoff) ==
      if Returns(cfg, page[n], cutoff) then before[page[n].adId := page[n].submission.priority] else before
  {
    ReturnedGrows(cfg, s, page, n, cutoff);
    RescoredOneMore(s, scores, ReturnedIds(cfg, s, page[..n], cutoff), page[n].adId);
  }

  /** It re-pushes exactly the ads it returned to the queue, each at its own priority. */
  lemma {:induction false} ExpiryRepushes(cfg: Config, redis: bool, p: Progress, page: seq<Record>, n: nat, cutoff: int)
    requires n <= |page| && ListedIn(p.stored, page)
    ensures ExpireFirst(cfg, redis, p, page, n, cutoff).scores ==
      if redis then ExpiryScores(cfg, p.stored, p.scores, page[..n], cutoff) else p.scores
  {
    if n == 0 {
      assert PageIds(page[..0]) == {} && ReturnedIds(cfg, p.stored, page[..0], cutoff) == {};
    } else {
      ExpiryRepushes(cfg, redis, p, page, n - 1, cutoff);
      ScoresGrow(cfg, p.stored, p.scores, page, n - 1, cutoff);
    }
  }

  /** It reports exactly the ads it returned to the queue, not those it failed. */
  lemma {:induction false} ExpiryCounts(cfg: Config, redis: bool, p: Progress, page: seq<Record>, n: nat, cutoff: int)
    requires n <= |page| && ListedIn(p.stored, page)
    ensures ExpireFirst(cfg, redis, p, page, n, cutoff).count ==
      p.count + |ReturnedIds(cfg, p.stored, page[..n], cutoff)|
  {
    if n == 0 {
      assert PageIds(page[..0]) == {} && ReturnedIds(cfg, p.stored, page[..0], cutoff) == {};
    } else {
      ExpiryCounts(cfg, redis, p, page, n - 1, cutoff);
      ReturnedCount(cfg, p.stored, page, n - 1, cutoff);
    }
  }

  lemma ExpiryAddsUp(cfg: Config, redis: bool, p: Progress, page: seq<Record>, cutoff: int)
    requires ListedIn(p.stored, page)
    ensures ExpireFirst(cfg, redis, p, page, |page|, cutoff) ==
      Progress(ExpiryStore(cfg, redis, p.stored, page, cutoff),
               if redis then ExpiryScores(cfg, p.stored, p.scores, page, cutoff) else p.scores,
               p.count + |ReturnedIds(cfg, p.stored, page, cutoff)|)
  {
    assert page[..|page|] == page;
    ExpiryMeaning(cfg, redis, p, page, |page|, cutoff);
    ExpiryRepushes(cfg, redis, p, page, |page|, cutoff);
    ExpiryCounts(cfg, redis, p, page, |page|, cutoff);
  }

  /** On any store the protocol can reach, the expiry pass as coded changes nothing and returns 0. */
  lemma {:induction false} ExpiryNeverFires(cfg: Config, redis: bool, log: Log, p: Progress, page: seq<Record>, n: nat, cutoff: int)
    requires Legal(log) && p.stored == Replay(log) && ListedIn(p.stored, page) && n <= |page|
    ensures ExpireFirst(cfg, redis, p, page, n, cutoff) == p
  {
    if n > 0 {
      ExpiryNeverFires(cfg, redis, log, p, page, n - 1, cutoff);
      ExpiryGuardIsNeverTrue(log, page[n - 1].adId, cutoff);
    }
  }
}
