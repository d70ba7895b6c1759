/**
 What priority aging promises, over all priorities, waits and rates
 (internal/domain/models/ad.go, CalculateEffectivePriority).
 */
module Aging {
  import opened Models

  lemma ProductMonotone(a: real, x: real, y: real)
    requires 0.0 <= a && x <= y
    ensures a * x <= a * y
  {
  }

  lemma SignOfFactor(a: real, m: real)
    requires m > 0.0 && a * m >= 0.0
    ensures a >= 0.0
  {
  }

  /** w/m lies on the same side of k as w does of k*m. */
  lemma QuotientBounds(w: real, m: real, k: real)
    requires m > 0.0
    ensures w >= k * m ==> w / m >= k
    ensures w <= k * m ==> w / m <= k
  {
    var q := w / m;
    assert q * m == w;
    assert (q - k) * m == w - k * m;
    assert (k - q) * m == k * m - w;
    if w >= k * m { SignOfFactor(q - k, m); }
    if w <= k * m { SignOfFactor(k - q, m); }
  }

  lemma RatioBounds(waiting: int, maxWaitTime: int)
    requires maxWaitTime > 0 && waiting >= 0
    ensures 0.0 <= WaitingRatio(waiting, maxWaitTime) <= 1.0
    ensures waiting >= maxWaitTime ==> WaitingRatio(waiting, maxWaitTime) == 1.0
  {
    QuotientBounds(waiting as real, maxWaitTime as real, 0.0);
    QuotientBounds(waiting as real, maxWaitTime as real, 1.0);
  }

  lemma RatioMonotone(w1: int, w2: int, maxWaitTime: int)
    requires maxWaitTime > 0 && w1 <= w2
    ensures WaitingRatio(w1, maxWaitTime) <= WaitingRatio(w2, maxWaitTime)
  {
    var m := maxWaitTime as real;
    var q := w1 as real / m;
    assert q * m == w1 as real;
    QuotientBounds(w2 as real, m, q);
  }

  lemma BoostMonotone(p: int, r1: real, r2: real, rate: real)
    requires p >= 1 && 0.0 <= r1 <= r2 && 0.0 <= rate
    ensures 0.0 <= Boost(p, r1, rate) <= Boost(p, r2, rate)
  {
    ProductMonotone(p as real, 0.0, r1);
    ProductMonotone(p as real, r1, r2);
    ProductMonotone(rate, 0.0, p as real * r1);
    ProductMonotone(rate, p as real * r1, p as real * r2);
  }

  lemma BoostedAntitone(p: int, x: real, y: real)
    requires p >= 1 && 0.0 <= x <= y
    ensures 1 <= Boosted(p, y) <= Boosted(p, x) <= p
  {
  }

  lemma BoostedShareAntitone(p: int, r1: real, r2: real, rate: real)
    requires p >= 1 && 0.0 <= r1 <= r2 && rate >= 0.0
    ensures 1 <= Boosted(p, Boost(p, r2, rate)) <= Boosted(p, Boost(p, r1, rate)) <= p
  {
    BoostMonotone(p, r1, r2, rate);
    BoostedAntitone(p, Boost(p, r1, rate), Boost(p, r2, rate));
  }

  /** Aging only ever helps, and never past the highest priority. */
  lemma AgedPriorityBounds(p: int, waiting: int, rate: real, maxWaitTime: int)
    requires p >= 1 && waiting >= 0 && rate >= 0.0 && maxWaitTime > 0
    ensures 1 <= AgedPriority(p, waiting, rate, maxWaitTime) <= p
  {
    AgedPriorityAntitoneInWait(p, waiting, waiting, rate, maxWaitTime);
  }

  /** Waiting longer never makes an ad less urgent. */
  lemma AgedPriorityAntitoneInWait(p: int, w1: int, w2: int, rate: real, maxWaitTime: int)
    requires p >= 1 && 0 <= w1 <= w2 && rate >= 0.0 && maxWaitTime > 0
    ensures 1 <= AgedPriority(p, w2, rate, maxWaitTime) <= AgedPriority(p, w1, rate, maxWaitTime) <= p
  {
    var r1, r2 := WaitingRatio(w1, maxWaitTime), WaitingRatio(w2, maxWaitTime);
    RatioBounds(w1, maxWaitTime);
    RatioMonotone(w1, w2, maxWaitTime);
    BoostedShareAntitone(p, r1, r2, rate);
  }

  /** From maxWaitTime on the priority no longer moves, and this is the value it stays at. */
  lemma AgedPrioritySaturates(p: int, waiting: int, rate: real, maxWaitTime: int)
    requires p >= 1 && rate >= 0.0 && maxWaitTime > 0 && waiting >= maxWaitTime
    ensures var lowest := p - (p as real * rate).Floor;
            AgedPriority(p, waiting, rate, maxWaitTime) == if lowest < 1 then 1 else lowest
  {
    RatioBounds(waiting, maxWaitTime);
    ProductMonotone(p as real, 0.0, rate);
    assert p as real * 1.0 * rate == p as real * rate;
  }

  lemma ScaleBack(p: real, q: real, rate: real, m: real, w: real)
    requires q * m == w
    ensures p * q * rate * m == p * w * rate
  {
    assert p * q * rate * m == (p * rate) * (q * m);
  }

  lemma QuotientIsUnique(x: real, m: real, y: real)
    requires m > 0.0 && x * m == y
    ensures x == y / m
  {
    QuotientBounds(y, m, x);
  }

  /** How far ahead of its priority an ad is: priority * rate, in proportion to its wait up to the maximum. */
  function Advance(p: int, waiting: int, rate: real, maxWaitTime: int): real
    requires maxWaitTime > 0
  {
    var waited := if waiting <= maxWaitTime then waiting else maxWaitTime;
    p as real * waited as real * rate / maxWaitTime as real
  }

  /** Aging is gradual: the aged priority is the priority less the whole part of its advance, but at least 1. */
  lemma AgedPriorityExactly(p: int, waiting: int, rate: real, maxWaitTime: int)
    requires p >= 1 && waiting >= 0 && rate >= 0.0 && maxWaitTime > 0
    ensures var aged := p - Advance(p, waiting, rate, maxWaitTime).Floor;
      AgedPriority(p, waiting, rate, maxWaitTime) == if aged < 1 then 1 else aged
  {
    BoostIsAdvance(p, waiting, rate, maxWaitTime);
    BoostedByFloor(p, Boost(p, WaitingRatio(waiting, maxWaitTime), rate));
  }

  lemma BoostedByFloor(p: int, x: real)
    requires x >= 0.0
    ensures Boosted(p, x) == if p - x.Floor < 1 then 1 else p - x.Floor
  {
  }

  lemma BoostIsAdvance(p: int, waiting: int, rate: real, maxWaitTime: int)
    requires p >= 1 && waiting >= 0 && rate >= 0.0 && maxWaitTime > 0
    ensures 0.0 <= Boost(p, WaitingRatio(waiting, maxWaitTime), rate) == Advance(p, waiting, rate, maxWaitTime)
  {
    var m, ratio := maxWaitTime as real, WaitingRatio(waiting, maxWaitTime);
    var waited := if waiting <= maxWaitTime then waiting else maxWaitTime;
    RatioBounds(waiting, maxWaitTime);
    RatioOfWaited(waiting, maxWaitTime);
    ScaleBack(p as real, ratio, rate, m, waited as real);
    QuotientIsUnique(Boost(p, ratio, rate), m, p as real * waited as real * rate);
    BoostMonotone(p, 0.0, ratio, rate);
  }

  lemma RatioOfWaited(waiting: int, maxWaitTime: int)
    requires waiting >= 0 && maxWaitTime > 0
    ensures var waited := if waiting <= maxWaitTime then waiting else maxWaitTime;
      WaitingRatio(waiting, maxWaitTime) * maxWaitTime as real == waited as real
  {
    var m := maxWaitTime as real;
    var q := waiting as real / m;
    assert q * m == waiting as real;
    QuotientBounds(waiting as real, m, 1.0);
    if waiting <= maxWaitTime {
      assert WaitingRatio(waiting, maxWaitTime) == q;
    } else {
      assert WaitingRatio(waiting, maxWaitTime) == 1.0;
    }
  }

  /** The same of a queued ad: what CalculateEffectivePriority returns for it. */
  lemma ComputedPriorityExactly(ad: Record, rate: real, maxWaitTime: int, now: int)
    requires ad.status == Queued && ad.queuedAt.Some? && ad.queuedAt.value <= now && ad.submission.priority >= 1
    requires rate >= 0.0 && maxWaitTime > 0
    ensures var p := ad.submission.priority;
      var aged := p - Advance(p, now - ad.queuedAt.value, rate, maxWaitTime).Floor;
      ad.ComputedPriority(rate, maxWaitTime, now) == if aged < 1 then 1 else aged
  {
    AgedPriorityExactly(ad.submission.priority, now - ad.queuedAt.value, rate, maxWaitTime);
  }

  /** The whole part without a division: b is the advance rounded down if and only if it lies in these bounds. */
  lemma AdvanceInWholes(p: int, waiting: int, rate: real, maxWaitTime: int, b: int)
    requires p >= 1 && 0 <= waiting <= maxWaitTime && maxWaitTime > 0
    ensures Advance(p, waiting, rate, maxWaitTime).Floor == b <==>
      b as real * maxWaitTime as real <= p as real * waiting as real * rate < b as real * maxWaitTime as real + maxWaitTime as real
  {
    var m, x := maxWaitTime as real, Advance(p, waiting, rate, maxWaitTime);
    BetweenMultiples(m, x, p as real * waiting as real * rate, b as real);
    FloorBetween(x, b);
  }

  lemma FloorBetween(x: real, b: int)
    ensures x.Floor == b <==> b as real <= x < b as real + 1.0
  {
  }

  lemma BetweenMultiples(m: real, x: real, y: real, b: real)
    requires m > 0.0 && x * m == y
    ensures b <= x <==> b * m <= y
    ensures x < b + 1.0 <==> y < b * m + m
  {
    SideOfMultiple(m, b, x, b * m, y);
    OneMultipleMore(b, b + 1.0, m);
    SideOfMultiple(m, b + 1.0, x, b * m + m, y);
  }

  lemma SideOfMultiple(m: real, k: real, x: real, km: real, y: real)
    requires m > 0.0 && k * m == km && x * m == y
    ensures k <= x <==> km <= y
  {
    SameSide(m, k, x);
  }

  lemma OneMultipleMore(b: real, next: real, m: real)
    requires next == b + 1.0
    ensures next * m == b * m + m
  {
    Distribute(b, 1.0, m);
  }

  lemma SameSide(m: real, x: real, y: real)
    requires m > 0.0
    ensures x <= y <==> x * m <= y * m
  {
    if x <= y {
      ProductMonotone(m, x, y);
    } else {
      assert (x - y) * m > 0.0;
    }
  }

  lemma ShareOf(d: real, share: real) returns (part: real)
    requires 0.0 <= d && 0.0 <= share <= 1.0
    ensures part == d * share
    ensures 0.0 <= part <= d
  {
    part := d * share;
    ProductMonotone(d, 0.0, share);
    ProductMonotone(d, share, 1.0);
  }

  /** While the share is at most one, raising the priority by d raises the boost by at most d. */
  lemma BoostGrowsSlowly(p: real, d: real, share: real, x: real, y: real)
    requires 0.0 <= p && 0.0 <= d && 0.0 <= share <= 1.0
    requires x == p * share && y == (p + d) * share
    ensures 0.0 <= x <= y <= x + d
  {
    var px := ShareOf(p, share);
    var dx := ShareOf(d, share);
    Distribute(p, d, share);
  }

  lemma Distribute(a: real, b: real, c: real)
    ensures (a + b) * c == a * c + b * c
  {
  }

  lemma BoostedKeepsOrder(p: int, q: int, x: real, y: real)
    requires 1 <= p <= q && 0.0 <= x <= y <= x + (q - p) as real
    ensures Boosted(p, x) <= Boosted(q, y)
  {
    assert (x + (q - p) as real).Floor == x.Floor + (q - p);
  }

  /** Ads queued together keep their relative order however long they wait, at any rate. */
  lemma AgingPreservesOrder(p: int, q: int, waiting: int, rate: real, maxWaitTime: int)
    requires 1 <= p <= q && waiting >= 0 && rate >= 0.0 && maxWaitTime > 0
    ensures AgedPriority(p, waiting, rate, maxWaitTime) <= AgedPriority(q, waiting, rate, maxWaitTime)
  {
    RatioBounds(waiting, maxWaitTime);
    BoostedShareKeepsOrder(p, q, WaitingRatio(waiting, maxWaitTime), rate);
  }

  lemma BoostedShareKeepsOrder(p: int, q: int, ratio: real, rate: real)
    requires 1 <= p <= q && ratio >= 0.0 && rate >= 0.0
    ensures Boosted(p, Boost(p, ratio, rate)) <= Boosted(q, Boost(q, ratio, rate))
  {
    ProductMonotone(ratio, 0.0, rate);
    Reassociate(p, ratio, rate);
    Reassociate(q, ratio, rate);
    ShareKeepsOrder(p, q, ratio * rate, Boost(p, ratio, rate), Boost(q, ratio, rate));
  }

  lemma ShareKeepsOrder(p: int, q: int, share: real, x: real, y: real)
    requires 1 <= p <= q && share >= 0.0
    requires x == p as real * share && y == q as real * share
    ensures Boosted(p, x) <= Boosted(q, y)
  {
    if share <= 1.0 {
      BoostGrowsSlowly(p as real, (q - p) as real, share, x, y);
      BoostedKeepsOrder(p, q, x, y);
    } else {
      // Every priority is boosted past the top, so p is clamped to 1.
      ProductMonotone(p as real, 1.0, share);
      ClampedToTop(p, x);
    }
  }

  lemma ClampedToTop(p: int, x: real)
    requires p >= 1 && x >= p as real
    ensures Boosted(p, x) == 1
  {
  }

  lemma Reassociate(p: int, ratio: real, rate: real)
    ensures Boost(p, ratio, rate) == p as real * (ratio * rate)
  {
  }
}
