/**
 Submitting and listing ads (internal/service/ad_service.go), and what paging adds up to.
 */
module AdService {
  import opened Models
  import opened Store
  import opened Maintenance
  import Memory
  import Queue

  /** The order in which an unfiltered listing visits the statuses. */
  const ALL_STATUSES: seq<AdStatus> := [Submitted, Queued, Processing, Completed, Failed]

  function Concat<T>(xss: seq<seq<T>>): seq<T> {
    if xss == [] then [] else Concat(xss[..|xss| - 1]) + xss[|xss| - 1]
  }

  function EachPage(fulls: seq<seq<Record>>, limit: nat, offset: nat): seq<seq<Record>> {
    seq(|fulls|, i requires 0 <= i < |fulls| => Page(fulls[i], limit, offset))
  }

  /** The given page of every list, one list after another. */
  function PagesOf(fulls: seq<seq<Record>>, limit: nat, offset: nat): seq<Record> {
    Concat(EachPage(fulls, limit, offset))
  }

  function Cut<T>(xs: seq<T>, limit: nat): seq<T> {
    if |xs| >= limit then xs[..limit] else xs
  }

  /** fulls are the newest-first lists of the first statuses. */
  ghost predicate AreListings(s: Ads, fulls: seq<seq<Record>>) {
    && |fulls| <= |ALL_STATUSES|
    && forall i | 0 <= i < |fulls| :: Listing(s, ALL_STATUSES[i], NewestFirst, fulls[i])
  }

  /** ads are the joined pages of the first statuses, cut at n; later statuses were left out only if n were found. */
  ghost predicate IsEnough(s: Ads, fulls: seq<seq<Record>>, n: nat, from: nat, ads: seq<Record>) {
    && AreListings(s, fulls)
    && ads == Cut(PagesOf(fulls, n, from), n)
    && (|fulls| < |ALL_STATUSES| ==> |PagesOf(fulls, n, from)| >= n)
  }

  class Service {
    const repo: Memory.MemoryRepository
    const queue: Queue.DistributedPriorityQueue

    constructor (repo: Memory.MemoryRepository, queue: Queue.DistributedPriorityQueue)
      ensures this.repo == repo && this.queue == queue
    {
      this.repo, this.queue := repo, queue;
    }

    /** Saves the ad, then tries to enqueue it; a refusal leaves it saved as submitted and is not reported. */
    method SubmitAd(ad: Ad, generatedId: string, now: int) returns (e: Option<Error>)
      requires queue.Valid() && queue.repo == repo && ad !in repo.Owned
      modifies repo`ads, repo`Contents, repo`Owned, repo.Owned, queue.redis, ad
      ensures queue.Valid()
      ensures old(ad.rec).adId == "" == generatedId ==>
        e == Some(InvalidAdData) && repo.Contents == old(repo.Contents) && queue.Cached() == old(queue.Cached())
      ensures old(ad.rec).adId != "" || generatedId != "" ==>
        var saved := old(ad.rec).(adId := if old(ad.rec).adId == "" then generatedId else old(ad.rec).adId,
              createdAt := now, version := 1, status := Submitted, attempts := 0);
        var s := old(repo.Contents)[saved.adId := saved];
        var refused := queue.closed
          || (queue.options.maxCapacity > 0 && |IdsWith(s, Queued)| >= queue.options.maxCapacity);
        && e == None
        && repo.Contents == (if refused then s else s[saved.adId := saved.(status := Queued, queuedAt := Some(now),
              effectivePriority := saved.submission.priority, version := 2)])
        && ad.rec == repo.Contents[saved.adId]
        && queue.Cached() ==
           (if refused || queue.redis == null then old(queue.Cached())
            else old(queue.Cached())[saved.adId := saved.submission.priority])
    {
      if ad.rec.adId == "" {
        ad.rec := ad.rec.(adId := generatedId);
      }
      ad.rec := ad.rec.(createdAt := now, version := 1, status := Submitted, attempts := 0);
      var saved := repo.Save(ad);
      if saved.Err? {
        return Some(saved.error);
      }
      var refusal := queue.Enqueue(ad, now);
      e := None;
    }

    /** One status: one page of it.  No status: the same page of every status in turn, until there is enough. */
    method ListAds(status: Option<AdStatus>, limit: int, offset: int) returns (ads: seq<Record>)
      requires repo.Valid()
      ensures var n, from := if 1 <= limit <= 100 then limit else 10, if offset < 0 then 0 else offset;
        if status.Some? then IsPageOf(repo.Contents, status.value, NewestFirst, n, from, ads)
        else exists fulls :: IsEnough(repo.Contents, fulls, n, from, ads)
    {
      var n, from := limit, offset;
      if n <= 0 || n > 100 {
        n := 10;
      }
      if from < 0 {
        from := 0;
      }
      if status.Some? {
        ads := repo.FindByStatus(status.value, n, from);
        return;
      }
      ads := ListEveryStatus(n, from);
    }

    method ListEveryStatus(n: nat, from: nat) returns (ads: seq<Record>)
      requires repo.Valid() && n > 0
      ensures exists fulls :: IsEnough(repo.Contents, fulls, n, from, ads)
    {
      ads := [];
      ghost var fulls := [];
      for i := 0 to |ALL_STATUSES|
        invariant |fulls| == i && AreListings(repo.Contents, fulls)
        invariant ads == PagesOf(fulls, n, from) && (i > 0 ==> |ads| < n)
      {
        var statusAds := repo.FindByStatus(ALL_STATUSES[i], n, from);
        ghost var full :| Listing(repo.Contents, ALL_STATUSES[i], NewestFirst, full) && statusAds == Page(full, n, from);
        OneListMore(repo.Contents, fulls, full, n, from);
        fulls := fulls + [full];
        ads := ads + statusAds;
        if |ads| >= n {
          ads := ads[..n];
          assert IsEnough(repo.Contents, fulls, n, from, ads);
          return;
        }
      }
      assert IsEnough(repo.Contents, fulls, n, from, ads);
    }
  }

  lemma ConcatLast(xss: seq<seq<Record>>, xs: seq<Record>)
    ensures Concat(xss + [xs]) == Concat(xss) + xs
  {
    assert (xss + [xs])[..|xss|] == xss;
  }

  lemma PagesLast(xss: seq<seq<Record>>, xs: seq<Record>, n: nat, offset: nat)
    ensures PagesOf(xss + [xs], n, offset) == PagesOf(xss, n, offset) + Page(xs, n, offset)
  {
    assert EachPage(xss + [xs], n, offset) == EachPage(xss, n, offset) + [Page(xs, n, offset)];
    ConcatLast(EachPage(xss, n, offset), Page(xs, n, offset));
  }

  lemma OneListMore(s: Ads, fulls: seq<seq<Record>>, full: seq<Record>, n: nat, from: nat)
    requires AreListings(s, fulls) && |fulls| < |ALL_STATUSES|
    requires Listing(s, ALL_STATUSES[|fulls|], NewestFirst, full)
    ensures AreListings(s, fulls + [full])
    ensures PagesOf(fulls + [full], n, from) == PagesOf(fulls, n, from) + Page(full, n, from)
  {
    PagesLast(fulls, full, n, from);
  }

  // ---------- paging ----------

  ghost predicate DistinctTimes(s: Ads, status: AdStatus) {
    forall a, b | a in IdsWith(s, status) && b in IdsWith(s, status) && a != b :: s[a].createdAt != s[b].createdAt
  }

  /** With distinct creation times there is one newest-first list of a status. */
  lemma ListingIsUnique(s: Ads, status: AdStatus, xs: seq<Record>, ys: seq<Record>)
    requires WellKeyed(s) && DistinctTimes(s, status)
    requires Listing(s, status, NewestFirst, xs) && Listing(s, status, NewestFirst, ys)
    ensures xs == ys
  {
    ListingIds(s, status, xs);
    ListingIds(s, status, ys);
    SameFirst(s, status, xs, ys, |xs|);
  }

  lemma {:induction false} SameFirst(s: Ads, status: AdStatus, xs: seq<Record>, ys: seq<Record>, n: nat)
    requires WellKeyed(s) && DistinctTimes(s, status) && n <= |xs| == |ys|
    requires Listing(s, status, NewestFirst, xs) && Listing(s, status, NewestFirst, ys)
    ensures xs[..n] == ys[..n]
  {
    if n > 0 {
      SameFirst(s, status, xs, ys, n - 1);
      NextIsNotOlder(s, status, xs, ys, n - 1);
      NextIsNotOlder(s, status, ys, xs, n - 1);
      assert xs[n - 1].createdAt == ys[n - 1].createdAt;
      assert xs[n - 1].adId in IdsWith(s, status) && ys[n - 1].adId in IdsWith(s, status);
    }
  }

  /** After equal prefixes, the next entry of ys occurs in xs from here on, so it is no newer. */
  lemma NextIsNotOlder(s: Ads, status: AdStatus, xs: seq<Record>, ys: seq<Record>, n: nat)
    requires n < |xs| == |ys| && xs[..n] == ys[..n]
    requires Listing(s, status, NewestFirst, xs) && Listing(s, status, NewestFirst, ys)
    ensures xs[n].createdAt >= ys[n].createdAt
  {
    forall j | 0 <= j < n ensures xs[j] != ys[n] {
      assert xs[..n][j] == ys[..n][j];
    }
    assert s[ys[n].adId] in xs;
    var k :| 0 <= k < |xs| && xs[k] == ys[n];
    assert k >= n;
    assert k > n ==> !Before(NewestFirst, xs[k], xs[n]);
  }

  /** The first m pages of size n. */
  function FirstPages<T>(xs: seq<T>, n: nat, m: nat): seq<T> {
    if m == 0 then [] else FirstPages(xs, n, m - 1) + Page(xs, n, PageStart(m - 1, n))
  }

  /** Consecutive pages join up without gap or repeat. */
  lemma {:induction false} PagesConcatenate<T>(xs: seq<T>, n: nat, m: nat)
    ensures FirstPages(xs, n, m) == Cut(xs, PageStart(m, n))
  {
    if m == 0 {
      assert xs[..0] == [];
    } else {
      PagesConcatenate(xs, n, m - 1);
      assert PageStart(m, n) == PageStart(m - 1, n) + n;
      JoinPage(xs, n, PageStart(m - 1, n));
    }
  }

  lemma JoinPage<T>(xs: seq<T>, n: nat, from: nat)
    ensures Cut(xs, from) + Page(xs, n, from) == Cut(xs, from + n)
  {
  }

  /** Where the page of this number begins. */
  function PageStart(i: nat, n: nat): nat {
    i * n
  }

  ghost predicate IsPageAt(s: Ads, status: AdStatus, n: nat, pages: seq<seq<Record>>, i: nat)
    requires i < |pages|
  {
    IsPageOf(s, status, NewestFirst, n, PageStart(i, n), pages[i])
  }

  lemma {:induction false} PagesAreFirstPages(s: Ads, status: AdStatus, full: seq<Record>, n: nat, pages: seq<seq<Record>>, m: nat)
    requires WellKeyed(s) && DistinctTimes(s, status) && Listing(s, status, NewestFirst, full) && m <= |pages|
    requires forall i: nat | i < |pages| :: IsPageAt(s, status, n, pages, i)
    ensures Concat(pages[..m]) == FirstPages(full, n, m)
  {
    if m > 0 {
      PagesAreFirstPages(s, status, full, n, pages, m - 1);
      assert IsPageAt(s, status, n, pages, m - 1);
      var listed :| Listing(s, status, NewestFirst, listed) && pages[m - 1] == Page(listed, n, PageStart(m - 1, n));
      ListingIsUnique(s, status, listed, full);
      assert pages[..m][..m - 1] == pages[..m - 1];
    }
  }

  /**
   The answers to consecutive FindByStatus calls, each of which sorts afresh, join up to the
   newest-first list of the status without gap or repeat, and enough of them to all of it.
   */
  lemma ConsecutivePagesJoin(s: Ads, status: AdStatus, full: seq<Record>, n: nat, pages: seq<seq<Record>>)
    requires WellKeyed(s) && DistinctTimes(s, status) && Listing(s, status, NewestFirst, full)
    requires forall i: nat | i < |pages| :: IsPageAt(s, status, n, pages, i)
    ensures Concat(pages) == Cut(full, PageStart(|pages|, n))
    ensures PageStart(|pages|, n) >= |full| ==> Concat(pages) == full
  {
    assert pages[..|pages|] == pages;
    PagesAreFirstPages(s, status, full, n, pages, |pages|);
    PagesConcatenate(full, n, |pages|);
  }

  /** Cutting every list at the limit and cutting again keeps the first entries of the joined lists. */
  lemma {:induction false} TruncationIsHarmless(fulls: seq<seq<Record>>, n: nat)
    ensures Cut(PagesOf(fulls, n, 0), n) == Cut(Concat(fulls), n)
  {
    if fulls != [] {
      var init, last := fulls[..|fulls| - 1], fulls[|fulls| - 1];
      TruncationIsHarmless(init, n);
      assert fulls == init + [last];
      PagesLast(init, last, n, 0);
      JoinCut(PagesOf(init, n, 0), Concat(init), last, n);
    }
  }

  lemma JoinCut(xs: seq<Record>, ys: seq<Record>, last: seq<Record>, n: nat)
    requires Cut(xs, n) == Cut(ys, n)
    ensures Cut(xs + Page(last, n, 0), n) == Cut(ys + last, n)
  {
    if |xs| >= n {
      assert |ys| >= n;
      assert (xs + Page(last, n, 0))[..n] == xs[..n] && (ys + last)[..n] == ys[..n];
    } else {
      assert xs == ys;
      if |last| > n {
        assert (xs + Page(last, n, 0))[..n] == (ys + last)[..n];
      } else {
        assert Page(last, n, 0) == last;
      }
    }
  }

  lemma {:induction false} ConcatPrefix(all: seq<seq<Record>>, k: nat)
    requires k <= |all|
    ensures Concat(all[..k]) <= Concat(all)
    decreases |all| - k
  {
    if k == |all| {
      assert all[..k] == all;
    } else {
      ConcatPrefix(all, k + 1);
      assert all[..k + 1][..k] == all[..k];
    }
  }

  lemma SameLists(s: Ads, fulls: seq<seq<Record>>, all: seq<seq<Record>>)
    requires WellKeyed(s) && AreListings(s, fulls) && AreListings(s, all) && |fulls| <= |all|
    requires forall status :: DistinctTimes(s, status)
    ensures fulls == all[..|fulls|]
  {
    forall i | 0 <= i < |fulls| ensures fulls[i] == all[i] {
      ListingIsUnique(s, ALL_STATUSES[i], fulls[i], all[i]);
    }
  }

  /**
   An unfiltered listing from the start, which stops as soon as it has enough and never
   fetches more than a page of a status, still returns the first n ads of all the full
   per-status lists joined.
   */
  lemma ListAllIsTheJoinedPrefix(s: Ads, all: seq<seq<Record>>, n: nat, ads: seq<Record>)
    requires WellKeyed(s) && AreListings(s, all) && |all| == |ALL_STATUSES|
    requires forall status :: DistinctTimes(s, status)
    requires exists fulls :: IsEnough(s, fulls, n, 0, ads)
    ensures ads == Cut(Concat(all), n)
  {
    var fulls :| IsEnough(s, fulls, n, 0, ads);
    SameLists(s, fulls, all);
    TruncationIsHarmless(fulls, n);
    ConcatPrefix(all, |fulls|);
    if |fulls| == |all| {
      assert all[..|fulls|] == all;
    }
  }

  // ---------- a later offset ----------

  lemma {:induction false} ConcatFront<T>(xs: seq<T>, xss: seq<seq<T>>)
    ensures Concat([xs] + xss) == xs + Concat(xss)
  {
    var all := [xs] + xss;
    if xss == [] {
      assert all[..0] == [] && Concat(all[..0]) == [];
    } else {
      var n := |xss| - 1;
      ConcatFront(xs, xss[..n]);
      assert all[..n + 1] == [xs] + xss[..n];
    }
  }

  lemma PagesFront(xs: seq<Record>, xss: seq<seq<Record>>, n: nat, offset: nat)
    ensures PagesOf([xs] + xss, n, offset) == Page(xs, n, offset) + PagesOf(xss, n, offset)
  {
    assert EachPage([xs] + xss, n, offset) == [Page(xs, n, offset)] + EachPage(xss, n, offset);
    ConcatFront(Page(xs, n, offset), EachPage(xss, n, offset));
  }

  function Sum(counts: seq<nat>): nat {
    if counts == [] then 0 else counts[0] + Sum(counts[1..])
  }

  /** The first status with any ads has m of them, or all there are. */
  predicate FirstReaches(counts: seq<nat>, m: nat) {
    if counts == [] then true
    else if counts[0] == 0 then FirstReaches(counts[1..], m)
    else counts[0] >= m || Sum(counts[1..]) == 0
  }

  /** What a caller who knows how many ads each status has can check before asking for a page. */
  predicate OffsetIsSafe(counts: seq<nat>, n: nat, offset: nat) {
    offset == 0 || Sum(counts) <= offset || FirstReaches(counts, offset + n)
  }

  function Lengths(fulls: seq<seq<Record>>): seq<nat> {
    seq(|fulls|, i requires 0 <= i < |fulls| => |fulls[i]|)
  }

  lemma {:induction false} JoinedLength(fulls: seq<seq<Record>>)
    ensures |Concat(fulls)| == Sum(Lengths(fulls))
  {
    if fulls != [] {
      assert fulls == [fulls[0]] + fulls[1..] && Lengths(fulls)[1..] == Lengths(fulls[1..]);
      ConcatFront(fulls[0], fulls[1..]);
      JoinedLength(fulls[1..]);
    }
  }

  /** The pages beyond an offset begin with an ad at least that far into the joined lists. */
  lemma {:induction false} PagesBeginLate(fulls: seq<seq<Record>>, n: nat, offset: nat) returns (p: nat)
    requires n > 0
    ensures PagesOf(fulls, n, offset) != [] ==>
      offset <= p < |Concat(fulls)| && PagesOf(fulls, n, offset)[0] == Concat(fulls)[p]
  {
    p := 0;
    if fulls != [] {
      var x, rest := fulls[0], fulls[1..];
      assert fulls == [x] + rest;
      ConcatFront(x, rest);
      PagesFront(x, rest, n, offset);
      if |x| > offset {
        p := offset;
      } else {
        var q := PagesBeginLate(rest, n, offset);
        p := |x| + q;
      }
    }
  }

  /** The last place of the joined page that the first list's own page leaves open. */
  function Gap(x: seq<Record>, offset: nat): nat {
    if |x| > offset then |x| - offset else 0
  }

  lemma JoinedPageFillsGap(x: seq<Record>, rest: seq<Record>, n: nat, offset: nat)
    requires |x| < offset + n && rest != [] && offset < |x| + |rest| && n > 0
    ensures var page := Page(x + rest, n, offset);
      Gap(x, offset) < |page| && page[Gap(x, offset)] == (x + rest)[offset + Gap(x, offset)]
  {
  }

  lemma PagesFillGap(x: seq<Record>, pages: seq<Record>, n: nat, offset: nat)
    requires |x| < offset + n && n > 0
    ensures var cut := Cut(Page(x, n, offset) + pages, n);
      if pages == [] then |cut| <= Gap(x, offset) else |cut| > Gap(x, offset) && cut[Gap(x, offset)] == pages[0]
  {
  }

  /** When the first list falls short and others follow, the joined page has an ad that no page begins with. */
  lemma ShortFirstList(x: seq<Record>, rest: seq<seq<Record>>, n: nat, offset: nat)
    requires DistinctIds(x + Concat(rest)) && 0 < |x| < offset + n && Concat(rest) != []
    requires 0 < offset < |x| + |Concat(rest)| && n > 0
    ensures Cut(Page(x, n, offset) + PagesOf(rest, n, offset), n) != Page(x + Concat(rest), n, offset)
  {
    var joined := x + Concat(rest);
    var p := PagesBeginLate(rest, n, offset);
    JoinedPageFillsGap(x, Concat(rest), n, offset);
    PagesFillGap(x, PagesOf(rest, n, offset), n, offset);
    if PagesOf(rest, n, offset) != [] {
      assert joined[|x| + p] == Concat(rest)[p];
      assert joined[offset + Gap(x, offset)].adId != joined[|x| + p].adId;
    }
  }

  /** The full lists' pages, cut at n, are the page of the joined lists if and only if the offset is safe. */
  lemma {:induction false} PageExactlyWhenSafe(fulls: seq<seq<Record>>, n: nat, offset: nat)
    requires n > 0 && DistinctIds(Concat(fulls)) && 0 < offset < |Concat(fulls)|
    ensures Cut(PagesOf(fulls, n, offset), n) == Page(Concat(fulls), n, offset) <==>
            FirstReaches(Lengths(fulls), offset + n)
  {
    var x, rest := fulls[0], fulls[1..];
    assert fulls == [x] + rest && Lengths(fulls)[1..] == Lengths(rest);
    ConcatFront(x, rest);
    PagesFront(x, rest, n, offset);
    JoinedLength(rest);
    if x == [] {
      assert x + Concat(rest) == Concat(rest) && Page(x, n, offset) + PagesOf(rest, n, offset) == PagesOf(rest, n, offset);
      PageExactlyWhenSafe(rest, n, offset);
    } else if Concat(rest) == [] {
      var p := PagesBeginLate(rest, n, offset);
      assert PagesOf(rest, n, offset) == [];
      assert x + Concat(rest) == x && Page(x, n, offset) + PagesOf(rest, n, offset) == Page(x, n, offset);
    } else if |x| >= offset + n {
      assert Page(x + Concat(rest), n, offset) == x[offset..offset + n];
    } else {
      ShortFirstList(x, rest, n, offset);
    }
  }

  lemma {:induction false} JoinedStatuses(s: Ads, fulls: seq<seq<Record>>)
    requires AreListings(s, fulls)
    ensures DistinctIds(Concat(fulls))
    ensures forall x | x in Concat(fulls) :: x.adId in s && s[x.adId] == x && x.status in ALL_STATUSES[..|fulls|]
  {
    if fulls != [] {
      var n := |fulls| - 1;
      JoinedStatuses(s, fulls[..n]);
      assert ALL_STATUSES[n] !in ALL_STATUSES[..n];
      assert ALL_STATUSES[..n + 1] == ALL_STATUSES[..n] + [ALL_STATUSES[n]];
      var init, last := Concat(fulls[..n]), fulls[n];
      forall i, j | 0 <= i < |init| && 0 <= j < |last| ensures init[i].adId != last[j].adId {
        assert init[i] in init;
        assert last[j].status == ALL_STATUSES[n];
      }
    }
  }

  lemma PagesPrefix(all: seq<seq<Record>>, n: nat, offset: nat, k: nat)
    requires k <= |all|
    ensures PagesOf(all[..k], n, offset) <= PagesOf(all, n, offset)
  {
    assert EachPage(all[..k], n, offset) == EachPage(all, n, offset)[..k];
    ConcatPrefix(EachPage(all, n, offset), k);
  }

  ghost function StatusCounts(s: Ads): seq<nat> {
    seq(|ALL_STATUSES|, i requires 0 <= i < |ALL_STATUSES| => |IdsWith(s, ALL_STATUSES[i])|)
  }

  lemma CountsAreLengths(s: Ads, all: seq<seq<Record>>)
    requires WellKeyed(s) && AreListings(s, all) && |all| == |ALL_STATUSES|
    ensures Lengths(all) == StatusCounts(s)
  {
    forall i | 0 <= i < |all| ensures |all[i]| == |IdsWith(s, ALL_STATUSES[i])| {
      ListingIds(s, ALL_STATUSES[i], all[i]);
    }
  }

  /** Where a status comes in an unfiltered listing. */
  function Rank(status: AdStatus): nat {
    match status
    case Submitted => 0
    case Queued => 1
    case Processing => 2
    case Completed => 3
    case Failed => 4
  }

  ghost predicate InStatusOrder(ads: seq<Record>) {
    forall i, j | 0 <= i < j < |ads| :: Rank(ads[i].status) <= Rank(ads[j].status)
  }

  lemma {:induction false} PagesInStatusOrder(s: Ads, fulls: seq<seq<Record>>, n: nat, offset: nat)
    requires AreListings(s, fulls)
    ensures InStatusOrder(PagesOf(fulls, n, offset))
    ensures forall ad | ad in PagesOf(fulls, n, offset) :: Rank(ad.status) < |fulls|
  {
    if fulls != [] {
      var k := |fulls| - 1;
      var init, last := PagesOf(fulls[..k], n, offset), Page(fulls[k], n, offset);
      PagesInStatusOrder(s, fulls[..k], n, offset);
      PagesLast(fulls[..k], fulls[k], n, offset);
      assert fulls == fulls[..k] + [fulls[k]];
      assert forall i | 0 <= i < |last| :: last[i] in fulls[k] && Rank(last[i].status) == k;
      assert forall i | 0 <= i < |init| :: init[i] in init;
    }
  }

  /** An unfiltered listing goes by status: submitted, queued, processing, completed, failed. */
  lemma ListAllGoesByStatus(s: Ads, n: nat, offset: nat, ads: seq<Record>)
    requires exists fulls :: IsEnough(s, fulls, n, offset, ads)
    ensures InStatusOrder(ads)
  {
    var fulls :| IsEnough(s, fulls, n, offset, ads);
    PagesInStatusOrder(s, fulls, n, offset);
  }

  lemma {:induction false} ListsAreJoined(fulls: seq<seq<Record>>, i: nat, ad: Record)
    requires i < |fulls| && ad in fulls[i]
    ensures ad in Concat(fulls)
  {
    if i < |fulls| - 1 {
      ListsAreJoined(fulls[..|fulls| - 1], i, ad);
    }
  }

  lemma JoinedIds(s: Ads, fulls: seq<seq<Record>>)
    requires WellKeyed(s) && AreListings(s, fulls)
    ensures |Concat(fulls)| == |PageIds(Concat(fulls))| && PageIds(Concat(fulls)) <= s.Keys
    ensures |fulls| == |ALL_STATUSES| ==> PageIds(Concat(fulls)) == s.Keys
  {
    var joined := Concat(fulls);
    JoinedStatuses(s, fulls);
    DistinctIdsCount(joined);
    forall id | id in PageIds(joined) ensures id in s {
      var i :| 0 <= i < |joined| && joined[i].adId == id;
      assert joined[i] in joined;
    }
    if |fulls| == |ALL_STATUSES| {
      forall id | id in s ensures id in PageIds(joined) {
        var k := Rank(s[id].status);
        assert ALL_STATUSES[k] == s[id].status;
        ListsAreJoined(fulls, k, s[id]);
        var i :| 0 <= i < |joined| && joined[i] == s[id];
        assert joined[i].adId == id;
      }
    }
  }

  /** From the start, an unfiltered listing has as many ads as asked for, or all there are. */
  lemma ListAllLength(s: Ads, n: nat, ads: seq<Record>)
    requires WellKeyed(s) && exists fulls :: IsEnough(s, fulls, n, 0, ads)
    ensures |ads| == if |s| < n then |s| else n
  {
    var fulls :| IsEnough(s, fulls, n, 0, ads);
    JoinedIds(s, fulls);
    TruncationIsHarmless(fulls, n);
    NoMoreThanStored(PageIds(Concat(fulls)), s);
  }

  lemma NoMoreThanStored(ids: set<string>, s: Ads)
    requires ids <= s.Keys
    ensures |ids| <= |s| && (ids == s.Keys ==> |ids| == |s|)
  {
    assert s.Keys == ids + (s.Keys - ids);
  }

  /** Stopping early changes nothing: the answer is that of all the lists. */
  lemma EnoughIsAll(s: Ads, all: seq<seq<Record>>, fulls: seq<seq<Record>>, n: nat, offset: nat, ads: seq<Record>)
    requires WellKeyed(s) && AreListings(s, all) && |all| == |ALL_STATUSES|
    requires forall status :: DistinctTimes(s, status)
    requires IsEnough(s, fulls, n, offset, ads)
    ensures ads == Cut(PagesOf(all, n, offset), n)
  {
    SameLists(s, fulls, all);
    PagesPrefix(all, n, offset, |fulls|);
    assert all[..|all|] == all;
  }

  /**
   From any offset: an unfiltered listing is the page of the joined per-status lists if and
   only if the offset is zero, or beyond them all, or the first status with any ads has
   enough of them, or no later status has any.
   */
  lemma ListAllIsAPageExactlyWhenSafe(s: Ads, all: seq<seq<Record>>, n: nat, offset: nat, ads: seq<Record>)
    requires WellKeyed(s) && AreListings(s, all) && |all| == |ALL_STATUSES| && n > 0
    requires forall status :: DistinctTimes(s, status)
    requires exists fulls :: IsEnough(s, fulls, n, offset, ads)
    ensures ads == Page(Concat(all), n, offset) <==> OffsetIsSafe(StatusCounts(s), n, offset)
  {
    var fulls :| IsEnough(s, fulls, n, offset, ads);
    EnoughIsAll(s, all, fulls, n, offset, ads);
    CountsAreLengths(s, all);
    JoinedLength(all);
    if offset == 0 {
      TruncationIsHarmless(all, n);
    } else if |Concat(all)| <= offset {
      var p := PagesBeginLate(all, n, offset);
    } else {
      JoinedStatuses(s, all);
      PageExactlyWhenSafe(all, n, offset);
    }
  }

  lemma PairIsListed(a: Record, b: Record)
    requires a.adId != b.adId && a.status == Submitted && b.status == Queued
    ensures AreListings(map[a.adId := a, b.adId := b], [[a], [b], [], [], []])
  {
    var s, fulls := map[a.adId := a, b.adId := b], [[a], [b], [], [], []];
    forall i | 0 <= i < |fulls| ensures Listing(s, ALL_STATUSES[i], NewestFirst, fulls[i]) {
    }
  }

  lemma PairIsJoined(a: Record, b: Record)
    ensures Concat([[a], [b], [], [], []]) == [a, b]
  {
    var none: seq<seq<Record>> := [];
    ConcatLast(none, [a]);
    assert none + [[a]] == [[a]];
    ConcatLast([[a]], [b]);
    assert [[a]] + [[b]] == [[a], [b]];
    ConcatLast([[a], [b]], []);
    assert [[a], [b]] + [[]] == [[a], [b], []];
    ConcatLast([[a], [b], []], []);
    assert [[a], [b], []] + [[]] == [[a], [b], [], []];
    ConcatLast([[a], [b], [], []], []);
    assert [[a], [b], [], []] + [[]] == [[a], [b], [], [], []];
  }

  /** With one submitted and one queued ad, a listing by pages of one never shows the queued ad, whatever the offset. */
  lemma SecondAdIsOnNoPage(a: Record, b: Record, offset: nat, ads: seq<Record>)
    requires a.adId != "" && b.adId != "" && a.adId != b.adId && a.status == Submitted && b.status == Queued
    requires exists fulls :: IsEnough(map[a.adId := a, b.adId := b], fulls, 1, offset, ads)
    ensures b !in ads && ads == (if offset == 0 then [a] else [])
  {
    var s, all := map[a.adId := a, b.adId := b], [[a], [b], [], [], []];
    var fulls :| IsEnough(s, fulls, 1, offset, ads);
    PairIsListed(a, b);
    PairIsJoined(a, b);
    EnoughIsAll(s, all, fulls, 1, offset, ads);
    if offset == 0 {
      TruncationIsHarmless(all, 1);
    } else {
      SkippedPages(all, 1, offset);
    }
  }

  lemma {:induction false} SkippedPages(fulls: seq<seq<Record>>, n: nat, offset: nat)
    requires forall i | 0 <= i < |fulls| :: |fulls[i]| <= offset
    ensures PagesOf(fulls, n, offset) == []
  {
    if fulls != [] {
      var k := |fulls| - 1;
      SkippedPages(fulls[..k], n, offset);
      PagesLast(fulls[..k], fulls[k], n, offset);
      assert fulls == fulls[..k] + [fulls[k]];
    }
  }
}
