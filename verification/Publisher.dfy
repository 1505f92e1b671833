/** The publisher's listener state: what the pong callback does to it and what its figures mean. */
module Publisher {
  import opened Samples
  import opened Percentiles

  /** PubCtx as the pong callback sees it; `token` is the binary semaphore. */
  datatype Ctx = Ctx(finishedRemote: bool, token: bool,
                     sum: nat, count: nat, min: nat, max: nat, history: seq<nat>)

  /** (uint64_t)-1, the minimum before any pong. */
  const NO_MIN: nat := TWO64 - 1

  const ZERO_CTX := Ctx(false, false, 0, 0, NO_MIN, 0, [])

  function Clamp32(x: nat): nat { if x > TWO32 - 1 then TWO32 - 1 else x }

  /** Half the round trip. */
  function Latency(now: nat, ts: nat): nat { if now > ts then (now - ts) / 2 else 0 }

  /** The statistics part of the callback for one latency; `capacity` is 0 when the history is disabled. */
  function Record(capacity: nat, x: Ctx, latency: nat): Ctx {
    x.(sum := (x.sum + latency) % TWO64,
       count := x.count + 1,
       max := if latency > x.max then latency else x.max,
       min := if latency < x.min then latency else x.min,
       history := if |x.history| < capacity then x.history + [Clamp32(latency)] else x.history)
  }

  function OnPong(capacity: nat, x: Ctx, s: Sample, now: nat): Ctx {
    match s.kind
    case Initialization => x
    case Finalization => x.(finishedRemote := true)
    case _ => Record(capacity, x, Latency(now, s.ts)).(token := true)
  }

  /** The per-size reset once the warm-up is over. */
  function ResetStats(x: Ctx): Ctx {
    x.(sum := 0, count := 0, min := NO_MIN, max := 0, history := [])
  }

  function FeedPongs(capacity: nat, x: Ctx, arrivals: seq<Arrival>): Ctx {
    if arrivals == [] then x
    else
      var last := arrivals[|arrivals| - 1];
      OnPong(capacity, FeedPongs(capacity, x, arrivals[..|arrivals| - 1]), last.sample, last.at)
  }

  // ---- What the figures mean -------------------------------------------------------------

  function Sum(lats: seq<nat>): nat {
    if lats == [] then 0 else Sum(lats[..|lats| - 1]) + lats[|lats| - 1]
  }

  /** The context holds exactly the figures of the latencies `lats`. */
  ghost predicate Figures(capacity: nat, x: Ctx, lats: seq<nat>) {
    && x.sum == Sum(lats) % TWO64
    && x.count == |lats|
    && (forall l :: l in lats ==> x.min <= l <= x.max)
    && (x.min == NO_MIN || x.min in lats)
    && (x.max == 0 || x.max in lats)
    && x.min <= NO_MIN
    && |x.history| == (if |lats| < capacity then |lats| else capacity)
    && forall i :: 0 <= i < |x.history| ==>
         if lats[i] < 0x1_0000_0000 then x.history[i] == lats[i] else x.history[i] == 0xFFFF_FFFF
  }

  lemma {:induction false} RecordKeepsFigures(capacity: nat, x: Ctx, lats: seq<nat>, latency: nat)
    requires Figures(capacity, x, lats)
    ensures Figures(capacity, Record(capacity, x, latency), lats + [latency])
  {
    assert (lats + [latency])[..|lats|] == lats;
    var total, y := Sum(lats), Record(capacity, x, latency);
    assert (total % TWO64 + latency) % TWO64 == (total + latency) % TWO64;
    forall l | l in lats + [latency] ensures y.min <= l <= y.max {}
  }

  /** The first n of them, or all. */
  function First(lats: seq<nat>, n: nat): seq<nat> {
    if |lats| < n then lats else lats[..n]
  }

  /** While every latency fits 32 bits the history is their first `capacity`, as they were. */
  lemma HistoryIsPrefix(capacity: nat, x: Ctx, lats: seq<nat>)
    requires Figures(capacity, x, lats) && x.max < 0x1_0000_0000
    ensures x.history == First(lats, capacity)
  {
    forall i | 0 <= i < |x.history| ensures x.history[i] == lats[i] {
      assert lats[i] in lats;
    }
  }

  /** The reset leaves the statistics of a fresh context, the semaphore and the finished flag as they are. */
  lemma ResetIsFresh(capacity: nat, x: Ctx)
    ensures Figures(capacity, ResetStats(x), [])
    ensures ResetStats(x) == ZERO_CTX.(token := x.token, finishedRemote := x.finishedRemote)
  {
  }

  lemma {:induction false} SumBounded(lats: seq<nat>, lo: nat, hi: nat)
    requires forall l :: l in lats ==> lo <= l <= hi
    ensures |lats| * lo <= Sum(lats) <= |lats| * hi
  {
    if lats != [] {
      var init := lats[..|lats| - 1];
      assert forall l :: l in init ==> l in lats;
      SumBounded(init, lo, hi);
      assert lats[|lats| - 1] in lats;
      OneMore(|init|, lo);
      OneMore(|init|, hi);
    }
  }

  lemma OneMore(n: nat, x: nat)
    ensures (n + 1) * x == n * x + x
  {
  }

  // ---- The result row --------------------------------------------------------------------

  datatype PubResult = PubResult(size: int, total: nat, received: nat, avg: nat, min: nat,
                                 p50: nat, p90: nat, p99: nat, max: nat, elapsed: int)

  /** The average the row reports. */
  function Mean(x: Ctx): nat { if x.count == 0 then 0 else x.sum / x.count }

  /** Everything run_one_size reads off the context at its end, taken as one snapshot. */
  function Capture(x: Ctx, size: int, total: nat, elapsed: int): PubResult
    requires |x.history| < TWO32
  {
    PubResult(size, total, x.count,
              Mean(x),
              if x.min == NO_MIN then 0 else x.min,
              Percentile(x.history, 50), Percentile(x.history, 90), Percentile(x.history, 99),
              x.max, elapsed)
  }

  /** v is the entry of rank k: in h, with at most k entries below it and more than k at or below it. */
  ghost predicate AtRank(h: seq<nat>, v: nat, k: nat) {
    v in h && Below(h, v) <= k < Below(h, v + 1)
  }

  /** The three percentiles are the entries of rank n * 50 / 100, n * 90 / 100 and n * 99 / 100; zero without entries. */
  ghost predicate Ranked(r: PubResult, h: seq<nat>) {
    && (h == [] ==> r.p50 == r.p90 == r.p99 == 0)
    && (0 < |h| <= 43383508 ==>
         AtRank(h, r.p50, |h| * 50 / 100) && AtRank(h, r.p90, |h| * 90 / 100) && AtRank(h, r.p99, |h| * 99 / 100))
  }

  /** The row field by field; the average is the quotient of sum and count, rounded down. */
  ghost predicate RowReads(r: PubResult, x: Ctx, size: int, total: nat, elapsed: int) {
    && r.size == size && r.total == total && r.elapsed == elapsed && r.received == x.count
    && r.max == x.max && r.min == (if x.min == 0xFFFF_FFFF_FFFF_FFFF then 0 else x.min)
    && (if x.count == 0 then r.avg == 0 else r.avg * x.count <= x.sum < r.avg * x.count + x.count)
    && Ranked(r, x.history)
  }

  lemma CaptureReads(x: Ctx, size: int, total: nat, elapsed: int)
    requires |x.history| < TWO32
    ensures RowReads(Capture(x, size, total, elapsed), x, size, total, elapsed)
  {
    CaptureRanked(x, size, total, elapsed);
    if x.count != 0 {
      QuotientBounds(x.sum, x.count);
    }
  }

  lemma QuotientBounds(sum: nat, n: nat)
    requires n > 0
    ensures sum / n * n <= sum < sum / n * n + n
  {
    assert sum == n * (sum / n) + sum % n;
  }

  lemma CaptureRanked(x: Ctx, size: int, total: nat, elapsed: int)
    requires |x.history| < TWO32
    ensures Ranked(Capture(x, size, total, elapsed), x.history)
  {
    if 0 < |x.history| <= 43383508 {
      var i := PercentileSplits(x.history, 50);
      var j := PercentileSplits(x.history, 90);
      var k := PercentileSplits(x.history, 99);
    }
  }

  /**
   * With every latency at most half the elapsed time the row is ordered, with no pong counted too:
   * min <= max <= elapsed / 2, and p50 <= p90 <= p99 <= max for the histories whose indices do not wrap.
   */
  lemma CaptureOrdered(capacity: nat, x: Ctx, lats: seq<nat>, size: int, total: nat, elapsed: int)
    requires 0 <= elapsed && |x.history| < TWO32 && Figures(capacity, x, lats)
    requires forall l :: l in lats ==> l <= elapsed / 2
    ensures var r := Capture(x, size, total, elapsed);
            && r.received == |lats|
            && r.min <= r.max <= elapsed / 2 && (forall l :: l in lats ==> r.min <= l <= r.max)
            && (capacity <= 43383508 ==> r.p50 <= r.p90 <= r.p99 <= r.max)
  {
    HistoryBelowMax(capacity, x, lats);
    if capacity <= 43383508 {
      PercentilesOrdered(x.history, x.max);
    }
  }

  /**
   * While every latency fits 32 bits the percentiles are those of the first `capacity` latencies, and none
   * is below the minimum.
   */
  lemma PercentilesOfLatencies(capacity: nat, x: Ctx, lats: seq<nat>, size: int, total: nat, elapsed: int)
    requires Figures(capacity, x, lats) && capacity <= 43383508 && x.max < 0x1_0000_0000
    ensures |x.history| < TWO32
    ensures var r := Capture(x, size, total, elapsed);
            && Ranked(r, First(lats, capacity))
            && (capacity > 0 && lats != [] ==> r.min <= r.p50)
  {
    HistoryIsPrefix(capacity, x, lats);
    CaptureRanked(x, size, total, elapsed);
    if capacity > 0 && lats != [] {
      var p50 := Capture(x, size, total, elapsed).p50;
      assert p50 in x.history && p50 in lats;
    }
  }

  /** The extremes reported are latencies that occurred, if any is below the start value of the minimum. */
  lemma ExtremesOccurred(capacity: nat, x: Ctx, lats: seq<nat>, size: int, total: nat, elapsed: int)
    requires |x.history| < TWO32 && Figures(capacity, x, lats)
    requires exists l :: l in lats && l < 0xFFFF_FFFF_FFFF_FFFF
    ensures var r := Capture(x, size, total, elapsed); r.min in lats && r.max in lats
  {
    var l :| l in lats && l < 0xFFFF_FFFF_FFFF_FFFF;
    assert x.min <= l <= x.max;
  }

  /** A sum that fits 64 bits is averaged exactly, and the average lies between the extremes. */
  lemma MeanOrdered(capacity: nat, x: Ctx, lats: seq<nat>, size: int, total: nat, elapsed: int)
    requires |x.history| < TWO32 && Figures(capacity, x, lats) && lats != [] && Sum(lats) < TWO64
    ensures var r := Capture(x, size, total, elapsed);
            r.avg == Sum(lats) / |lats| && r.min <= r.avg <= r.max
  {
    MeanIsExact(x, Sum(lats), |lats|);
    SumBounded(lats, x.min, x.max);
    MeanBetween(Sum(lats), |lats|, x.min, x.max);
  }

  lemma MeanIsExact(x: Ctx, sum: nat, n: nat)
    requires x.sum == sum % TWO64 && x.count == n > 0 && sum < TWO64
    ensures Mean(x) == sum / n
  {
    assert sum % TWO64 == sum;
  }

  lemma HistoryBelowMax(capacity: nat, x: Ctx, lats: seq<nat>)
    requires Figures(capacity, x, lats)
    ensures forall v :: v in x.history ==> v <= x.max
  {
    forall v | v in x.history ensures v <= x.max {
      var i :| 0 <= i < |x.history| && x.history[i] == v;
      assert lats[i] in lats;
    }
  }

  lemma MeanBetween(sum: nat, n: nat, lo: nat, hi: nat)
    requires n > 0 && n * lo <= sum <= n * hi
    ensures lo <= sum / n <= hi
  {
    var m := sum / n;
    assert n * m <= sum < n * m + n;
    assert m < lo ==> n * (m + 1) <= n * lo;
    assert m > hi ==> n * m >= n * (hi + 1);
  }

  /** The reported average is the true mean exactly while the sum of the latencies fits 64 bits. */
  lemma AverageExactIff(capacity: nat, x: Ctx, lats: seq<nat>, size: int, total: nat, elapsed: int)
    requires Figures(capacity, x, lats) && 0 < |lats| <= TWO64 && |x.history| < TWO32
    ensures Capture(x, size, total, elapsed).avg == Sum(lats) / |lats| <==> Sum(lats) < TWO64
  {
    MeanExactIff(x, Sum(lats), |lats|);
  }

  lemma MeanExactIff(x: Ctx, sum: nat, n: nat)
    requires x.sum == sum % TWO64 && x.count == n && 0 < n <= TWO64
    ensures Mean(x) == sum / n <==> sum < TWO64
  {
    if sum >= TWO64 {
      WrappedQuotient(sum, n, sum % TWO64);
    } else {
      MeanIsExact(x, sum, n);
    }
  }

  lemma WrappedQuotient(s: nat, n: nat, r: nat)
    requires 0 < n <= TWO64 && r + TWO64 <= s
    ensures r / n < s / n
  {
    var a, b := r / n, s / n;
    assert n * a <= r < n * a + n && n * b <= s < n * b + n;
    assert b <= a ==> n * b <= n * a;
  }

  // ---- Warm-up ---------------------------------------------------------------------------

  /** Echoed warm-up samples touch neither the statistics, the semaphore nor the finished flag. */
  lemma {:induction false} WarmupLeavesStatistics(capacity: nat, x: Ctx, arrivals: seq<Arrival>)
    ensures FeedPongs(capacity, x, arrivals) == FeedPongs(capacity, x, WithoutInit(arrivals))
  {
    if arrivals != [] {
      var init, last := arrivals[..|arrivals| - 1], arrivals[|arrivals| - 1];
      WarmupLeavesStatistics(capacity, x, init);
      if !last.sample.kind.Initialization? {
        assert WithoutInit(arrivals)[..|WithoutInit(arrivals)| - 1] == WithoutInit(init);
      }
    }
  }
}
