/** The subscriber engine: the ping callback, its main loop, and what its loss counter means. */
module Subscriber {
  import opened Samples

  /** The part of SubCtx the callback works on. */
  datatype SubState = SubState(total: nat, size: int, lastSeq: int, lost: nat, start: nat, finished: bool)

  /** SubCtx as memset leaves it. */
  const ZERO := SubState(0, 0, 0, 0, 0, false)

  /** The reset after matching; the reported size is not part of it. */
  function Reset(c: SubState): SubState {
    c.(total := 0, lastSeq := 0, lost := 0, start := 0, finished := false)
  }

  function OnSample(c: SubState, s: Sample, now: nat): SubState {
    match s.kind
    case Initialization => c
    case Finalization =>
      if c.finished then c
      else c.(lost := c.lost + (if s.num > c.lastSeq then s.num - c.lastSeq else 0), finished := true)
    case _ =>
      var gap := if c.lastSeq != 0 && s.num > c.lastSeq + 1 then s.num - c.lastSeq - 1 else 0;
      c.(lost := c.lost + gap,
         lastSeq := s.num,
         total := c.total + 1,
         size := s.size,
         start := if c.start == 0 then now else c.start)
  }

  /** What the callback writes on the pong topic. */
  function Echo(s: Sample): seq<Sample> {
    if s.kind.Data? then [] else [s]
  }

  /** The state after a whole stream of callbacks. */
  function Feed(c: SubState, arrivals: seq<Arrival>): SubState {
    if arrivals == [] then c
    else
      var last := arrivals[|arrivals| - 1];
      OnSample(Feed(c, arrivals[..|arrivals| - 1]), last.sample, last.at)
  }

  function Echoes(arrivals: seq<Arrival>): seq<Sample> {
    if arrivals == [] then []
    else Echoes(arrivals[..|arrivals| - 1]) + Echo(arrivals[|arrivals| - 1].sample)
  }

  /** Finalization stamped with the publisher's last sequence number. */
  function Final(exp: int): Sample { Sample(Finalization, exp, 0, 0) }

  /** The reported throughput over `elapsed` microseconds: bits per microsecond are megabits per second. */
  function FinalMbps(c: SubState, elapsed: nat): real {
    if elapsed > 0 && c.total > 0 then c.total as real * c.size as real * 8.0 / elapsed as real else 0.0
  }

  // ---- Loss accounting over an arbitrary, reordered, duplicated stream -------------------

  /** Warm-up traffic and data numbered 1..exp, in any order and any number of times. */
  ghost predicate Numbered(arrivals: seq<Arrival>, exp: int) {
    forall i :: 0 <= i < |arrivals| ==>
      var s := arrivals[i].sample;
      s.kind.Initialization? || (s.IsData() && 1 <= s.num <= exp)
  }

  /** Data never steps backwards; repetitions are allowed. */
  ghost predicate NeverBackwards(arrivals: seq<Arrival>) {
    forall i, j :: 0 <= i < j < |arrivals| && arrivals[i].sample.IsData() && arrivals[j].sample.IsData() ==>
      arrivals[i].sample.num <= arrivals[j].sample.num
  }

  ghost function Received(arrivals: seq<Arrival>): set<int> {
    if arrivals == [] then {}
    else
      var s := arrivals[|arrivals| - 1].sample;
      Received(arrivals[..|arrivals| - 1]) + (if s.IsData() then {s.num} else {})
  }

  /** The smallest number received, 0 when none was. */
  ghost function Floor(arrivals: seq<Arrival>): int {
    if arrivals == [] then 0
    else
      var s, f := arrivals[|arrivals| - 1].sample, Floor(arrivals[..|arrivals| - 1]);
      if s.IsData() && (f == 0 || s.num < f) then s.num else f
  }

  lemma {:induction false} FloorIsSmallest(arrivals: seq<Arrival>, exp: int)
    requires Numbered(arrivals, exp)
    ensures forall v :: v in Received(arrivals) ==> Floor(arrivals) <= v <= exp
    ensures Floor(arrivals) >= 0
    ensures if Floor(arrivals) == 0 then Received(arrivals) == {} else Floor(arrivals) in Received(arrivals)
  {
    if arrivals != [] {
      FloorIsSmallest(arrivals[..|arrivals| - 1], exp);
    }
  }

  predicate Between(lo: int, v: int, hi: int) { lo < v <= hi }

  /** The integers of the half-open interval (lo, hi]. */
  ghost function Interval(lo: int, hi: int): set<int> {
    set v | lo < v <= hi && Between(lo, v, hi)
  }

  lemma {:induction false} IntervalSize(lo: int, hi: int)
    requires lo <= hi
    ensures |Interval(lo, hi)| == hi - lo
    decreases hi - lo
  {
    if lo < hi {
      IntervalSize(lo, hi - 1);
      assert Interval(lo, hi) == Interval(lo, hi - 1) + {hi};
    } else {
      assert Interval(lo, hi) == {};
    }
  }

  /** Where the callback stands after data numbered from 1: at the last number received, 0 before any. */
  lemma {:induction false} LastIsReceived(arrivals: seq<Arrival>, exp: int)
    requires 0 <= exp && Numbered(arrivals, exp)
    ensures var c := Feed(ZERO, arrivals);
            && !c.finished
            && (c.lastSeq == 0 <==> Received(arrivals) == {})
            && (c.lastSeq != 0 ==> c.lastSeq in Received(arrivals))
            && 0 <= c.lastSeq <= exp
  {
    if arrivals != [] {
      LastIsReceived(arrivals[..|arrivals| - 1], exp);
    }
  }

  /** The numbers the callback jumped over, each as often as it did: what it adds to the loss counter. */
  ghost function Jumped(arrivals: seq<Arrival>): multiset<int> {
    if arrivals == [] then multiset{}
    else
      var init, s := arrivals[..|arrivals| - 1], arrivals[|arrivals| - 1].sample;
      var last := Feed(ZERO, init).lastSeq;
      Jumped(init) + (if s.IsData() && last != 0 && s.num > last + 1 then multiset(Interval(last, s.num - 1)) else multiset{})
  }

  /** The numbers behind the loss reported at finalization: those jumped over and those behind the last one. */
  ghost function Presumed(arrivals: seq<Arrival>, exp: int): multiset<int> {
    Jumped(arrivals) + multiset(Interval(Feed(ZERO, arrivals).lastSeq, exp))
  }

  /** The loss after finalization. */
  function Reported(arrivals: seq<Arrival>, exp: int, now: nat): nat {
    OnSample(Feed(ZERO, arrivals), Final(exp), now).lost
  }

  lemma {:induction false} LossIsJumped(arrivals: seq<Arrival>, exp: int)
    requires 0 <= exp && Numbered(arrivals, exp)
    ensures Feed(ZERO, arrivals).lost == |Jumped(arrivals)|
    ensures forall v :: v in Jumped(arrivals) ==> Floor(arrivals) < v <= exp
    ensures Floor(arrivals) == 0 ==> Jumped(arrivals) == multiset{}
  {
    if arrivals != [] {
      var init, s := arrivals[..|arrivals| - 1], arrivals[|arrivals| - 1].sample;
      LossIsJumped(init, exp);
      FloorIsSmallest(init, exp);
      LastIsReceived(init, exp);
      var last := Feed(ZERO, init).lastSeq;
      if s.IsData() && last != 0 && s.num > last + 1 {
        IntervalSize(last, s.num - 1);
      }
    }
  }

  /** Every number between the smallest received and the last one that did not arrive was jumped over. */
  lemma {:induction false} SkippedAreJumped(arrivals: seq<Arrival>, exp: int)
    requires 0 <= exp && Numbered(arrivals, exp)
    ensures forall v :: Floor(arrivals) < v < Feed(ZERO, arrivals).lastSeq && v !in Received(arrivals) ==> v in Jumped(arrivals)
  {
    if arrivals != [] {
      var init := arrivals[..|arrivals| - 1];
      FloorIsSmallest(init, exp);
      LastIsReceived(init, exp);
      SkippedAreJumped(init, exp);
    }
  }

  /** Numbers above the smallest received one, up to exp, that never arrived. */
  ghost function Missing(arrivals: seq<Arrival>, exp: int): set<int> {
    Interval(Floor(arrivals), exp) - Received(arrivals)
  }

  /** The report counts exactly the presumed numbers, all above the smallest received, the missing among them. */
  lemma ReportedIsPresumed(arrivals: seq<Arrival>, exp: int, now: nat)
    requires 0 <= exp && Numbered(arrivals, exp)
    ensures Reported(arrivals, exp, now) == |Presumed(arrivals, exp)|
    ensures multiset(Missing(arrivals, exp)) <= Presumed(arrivals, exp)
    ensures forall v :: v in Presumed(arrivals, exp) ==> v in Interval(Floor(arrivals), exp)
  {
    LossIsJumped(arrivals, exp);
    SkippedAreJumped(arrivals, exp);
    FloorIsSmallest(arrivals, exp);
    LastIsReceived(arrivals, exp);
    IntervalSize(Feed(ZERO, arrivals).lastSeq, exp);
  }

  /**
   * For any order and any duplication, the loss reported at finalization is at least the count of
   * numbers that never arrived above the smallest one that did (all of them when none did).
   */
  lemma LossNeverUnderReported(arrivals: seq<Arrival>, exp: int, now: nat)
    requires 0 <= exp && Numbered(arrivals, exp)
    ensures |Missing(arrivals, exp)| <= Reported(arrivals, exp, now)
  {
    var m, p := multiset(Missing(arrivals, exp)), Presumed(arrivals, exp);
    ReportedIsPresumed(arrivals, exp, now);
    assert p == m + (p - m);
  }

  /** Every presumed number was presumed once and never arrived. */
  ghost predicate PresumedRightly(arrivals: seq<Arrival>, exp: int) {
    forall v :: v in Presumed(arrivals, exp) ==> Presumed(arrivals, exp)[v] == 1 && v !in Received(arrivals)
  }

  /**
   * For any order and any duplication, the report is exactly the count of missing numbers when, and only
   * when, no number was jumped over twice and none jumped over, or left behind at the end, arrived.
   */
  lemma LossExactIff(arrivals: seq<Arrival>, exp: int, now: nat)
    requires 0 <= exp && Numbered(arrivals, exp)
    ensures Reported(arrivals, exp, now) == |Missing(arrivals, exp)| <==> PresumedRightly(arrivals, exp)
  {
    var m, p := multiset(Missing(arrivals, exp)), Presumed(arrivals, exp);
    ReportedIsPresumed(arrivals, exp, now);
    assert p == m + (p - m);
    if |p| == |m| {
      assert |p - m| == 0 && p == m;
    }
    if PresumedRightly(arrivals, exp) {
      assert p == m;
    }
  }

  /** In a stream that never steps backwards the last data number is the largest. */
  lemma {:induction false} LastNotAbove(init: seq<Arrival>, last: Sample, whole: seq<Arrival>)
    requires |whole| == |init| + 1 && whole[..|init|] == init && whole[|init|].sample == last && last.IsData()
    requires NeverBackwards(whole)
    ensures forall v :: v in Received(init) ==> v <= last.num
  {
    forall v | v in Received(init) ensures v <= last.num {
      var i := ReceivedAt(init, v);
      assert whole[i] == init[i];
    }
  }

  lemma {:induction false} ReceivedAt(arrivals: seq<Arrival>, v: int) returns (i: nat)
    requires v in Received(arrivals)
    ensures i < |arrivals| && arrivals[i].sample.IsData() && arrivals[i].sample.num == v
  {
    var s := arrivals[|arrivals| - 1].sample;
    if s.IsData() && s.num == v {
      i := |arrivals| - 1;
    } else {
      i := ReceivedAt(arrivals[..|arrivals| - 1], v);
    }
  }

  /** Everything of 1..exp that never arrived. */
  ghost function NeverReceived(arrivals: seq<Arrival>, exp: int): set<int> {
    Interval(0, exp) - Received(arrivals)
  }

  lemma DifferenceSize(a: set<int>, b: set<int>)
    requires b <= a
    ensures |a - b| == |a| - |b|
  {
    assert a == b + (a - b);
  }

  lemma NeverReceivedSize(arrivals: seq<Arrival>, exp: int)
    requires 0 <= exp && Numbered(arrivals, exp)
    ensures |NeverReceived(arrivals, exp)| == exp - |Received(arrivals)|
  {
    ReceivedPositive(arrivals, exp);
    IntervalSize(0, exp);
    assert Received(arrivals) <= Interval(0, exp);
    DifferenceSize(Interval(0, exp), Received(arrivals));
  }

  lemma {:induction false} ReceivedPositive(arrivals: seq<Arrival>, exp: int)
    requires Numbered(arrivals, exp)
    ensures forall v :: v in Received(arrivals) ==> 1 <= v <= exp
  {
    if arrivals != [] {
      ReceivedPositive(arrivals[..|arrivals| - 1], exp);
    }
  }

  lemma MissingSize(arrivals: seq<Arrival>, exp: int)
    requires 0 <= exp && Numbered(arrivals, exp)
    ensures |Missing(arrivals, exp)|
         == if Floor(arrivals) == 0 then exp else exp - Floor(arrivals) + 1 - |Received(arrivals)|
  {
    FloorIsSmallest(arrivals, exp);
    var r, f := Received(arrivals), Floor(arrivals);
    IntervalSize(f, exp);
    if f == 0 {
      assert Missing(arrivals, exp) == Interval(0, exp);
    } else {
      assert r - {f} <= Interval(f, exp);
      DifferenceSize(Interval(f, exp), r - {f});
      assert Missing(arrivals, exp) == Interval(f, exp) - (r - {f});
    }
  }

  /** In order, numbers are jumped over once, below the last one, and do not arrive later. */
  lemma {:induction false} JumpedOnceInOrder(arrivals: seq<Arrival>, exp: int)
    requires 0 <= exp && Numbered(arrivals, exp) && NeverBackwards(arrivals)
    ensures forall v :: v in Received(arrivals) ==> v <= Feed(ZERO, arrivals).lastSeq
    ensures forall v :: v in Jumped(arrivals) ==>
      Jumped(arrivals)[v] == 1 && v < Feed(ZERO, arrivals).lastSeq && v !in Received(arrivals)
  {
    if arrivals != [] {
      var init, last := arrivals[..|arrivals| - 1], arrivals[|arrivals| - 1].sample;
      LastIsReceived(init, exp);
      JumpedOnceInOrder(init, exp);
      if last.IsData() {
        LastNotAbove(init, last, arrivals);
      }
    }
  }

  /** In order, the report is exactly the numbers missing above the smallest received. */
  lemma LossExactInOrder(arrivals: seq<Arrival>, exp: int, now: nat)
    requires 0 <= exp && Numbered(arrivals, exp) && NeverBackwards(arrivals)
    ensures Reported(arrivals, exp, now) == |Missing(arrivals, exp)|
  {
    JumpedOnceInOrder(arrivals, exp);
    LossExactIff(arrivals, exp, now);
  }

  /**
   * When the report is the true loss: in order, exactly when nothing arrived or number 1 did. What is
   * lost before the first arrival is not reported.
   */
  lemma LossIsTrueLossIff(arrivals: seq<Arrival>, exp: int, now: nat)
    requires 0 <= exp && Numbered(arrivals, exp) && NeverBackwards(arrivals)
    ensures Reported(arrivals, exp, now) == |NeverReceived(arrivals, exp)|
       <==> (Received(arrivals) == {} || 1 in Received(arrivals))
  {
    LossExactInOrder(arrivals, exp, now);
    MissingSize(arrivals, exp);
    NeverReceivedSize(arrivals, exp);
    FloorIsSmallest(arrivals, exp);
    ReceivedPositive(arrivals, exp);
  }

  /** Two samples lost ahead of the first arrival go unreported. */
  lemma LeadingLossIsUnreported()
    ensures var arrivals := [Arrival(Sample(Data, 3, 0, 28), 5)];
            && Reported(arrivals, 3, 6) == 0
            && |NeverReceived(arrivals, 3)| == 2
  {
    var arrivals := [Arrival(Sample(Data, 3, 0, 28), 5)];
    assert arrivals[..0] == [];
    assert Feed(ZERO, arrivals) == OnSample(Feed(ZERO, arrivals[..0]), arrivals[0].sample, 5);
    assert Received(arrivals) == Received(arrivals[..0]) + {3};
    assert NeverReceived(arrivals, 3) == {1, 2};
  }

  /** A sample that overtakes the one before it is reported lost although it arrived. */
  lemma ReorderingOverReports()
    ensures var arrivals := [Arrival(Sample(Data, 1, 0, 28), 5), Arrival(Sample(Data, 3, 0, 28), 6), Arrival(Sample(Data, 2, 0, 28), 7)];
            && Reported(arrivals, 3, 8) == 2
            && NeverReceived(arrivals, 3) == {}
  {
    var a := [Arrival(Sample(Data, 1, 0, 28), 5), Arrival(Sample(Data, 3, 0, 28), 6), Arrival(Sample(Data, 2, 0, 28), 7)];
    assert a[..2][..1] == [a[0]] && [a[0]][..0] == [] && a[..2][1] == a[1];
    assert Feed(ZERO, [a[0]]) == OnSample(Feed(ZERO, []), a[0].sample, 5);
    assert Feed(ZERO, a[..2]) == OnSample(Feed(ZERO, [a[0]]), a[1].sample, 6);
    assert Feed(ZERO, a) == OnSample(Feed(ZERO, a[..2]), a[2].sample, 7);
    assert Received(a[..2]) == Received([a[0]]) + {3};
    assert Received(a) == Received(a[..2]) + {2};
  }

  // ---- Warm-up and repetition ------------------------------------------------------------

  /** Warm-up samples never change the subscriber, wherever they are interleaved. */
  lemma {:induction false} WarmupLeavesCounters(c: SubState, arrivals: seq<Arrival>)
    ensures Feed(c, arrivals) == Feed(c, WithoutInit(arrivals))
  {
    if arrivals != [] {
      var init, last := arrivals[..|arrivals| - 1], arrivals[|arrivals| - 1];
      WarmupLeavesCounters(c, init);
      if !last.sample.kind.Initialization? {
        assert WithoutInit(arrivals)[..|WithoutInit(arrivals)| - 1] == WithoutInit(init);
      }
    }
  }

  /** Clock readings that are past zero and never step back. */
  ghost predicate Timed(arrivals: seq<Arrival>) {
    && (forall i :: 0 <= i < |arrivals| ==> 0 < arrivals[i].at)
    && forall i, j :: 0 <= i < j < |arrivals| ==> arrivals[i].at <= arrivals[j].at
  }

  /**
   * The throughput interval starts at the first data sample: no data is earlier, one is exactly then,
   * and without data there is no start.
   */
  lemma {:induction false} StartIsFirstData(arrivals: seq<Arrival>) returns (k: nat)
    requires Timed(arrivals)
    ensures var start := Feed(ZERO, arrivals).start;
            if start == 0 then forall i :: 0 <= i < |arrivals| ==> !arrivals[i].sample.IsData()
            else && k < |arrivals| && arrivals[k].sample.IsData() && arrivals[k].at == start
                 && forall i :: 0 <= i < k ==> !arrivals[i].sample.IsData()
  {
    k := 0;
    if arrivals != [] {
      var init := arrivals[..|arrivals| - 1];
      k := StartIsFirstData(init);
      if Feed(ZERO, init).start == 0 {
        k := |arrivals| - 1;
      }
    }
  }

  /** One finalization or many in a row, whatever their stamps: the first one decides. */
  lemma {:induction false} RepeatedFinalization(c: SubState, finals: seq<Arrival>)
    requires finals != [] && forall i :: 0 <= i < |finals| ==> finals[i].sample.kind.Finalization?
    ensures Feed(c, finals) == OnSample(c, finals[0].sample, finals[0].at)
    ensures Feed(c, finals).finished
  {
    var init := finals[..|finals| - 1];
    if init == [] {
      assert Feed(c, init) == c;
    } else {
      RepeatedFinalization(c, init);
    }
  }

  /**
   * The callback's plain counters: the data samples handled, and the number and the reported size of the
   * last of them.
   */
  lemma {:induction false} CountersAreData(c: SubState, arrivals: seq<Arrival>) returns (last: nat)
    ensures var d := Feed(c, arrivals);
            && d.total == c.total + |DataAt(arrivals)|
            && if DataAt(arrivals) == {} then d.lastSeq == c.lastSeq && d.size == c.size
               else && last in DataAt(arrivals) && (forall i :: i in DataAt(arrivals) ==> i <= last)
                    && d.lastSeq == arrivals[last].sample.num && d.size == arrivals[last].sample.size
  {
    last := 0;
    if arrivals != [] {
      var n := |arrivals| - 1;
      last := CountersAreData(c, arrivals[..n]);
      assert DataAt(arrivals) == DataAt(arrivals[..n]) + if arrivals[n].sample.IsData() then {n} else {};
      if arrivals[n].sample.IsData() {
        last := n;
      }
    }
  }

  ghost function DataAt(arrivals: seq<Arrival>): set<nat> {
    set i: nat | i < |arrivals| && arrivals[i].sample.IsData()
  }

  /** The reset makes the subscriber forget: from then on it differs from a fresh one in the reported size, until data comes. */
  lemma {:induction false} ResetForgets(c: SubState, arrivals: seq<Arrival>)
    ensures var first, d := Feed(ZERO, arrivals), Feed(Reset(c), arrivals);
            d == first.(size := if first.total == 0 then c.size else first.size)
  {
    if arrivals != [] {
      ResetForgets(c, arrivals[..|arrivals| - 1]);
    }
  }

  /** The reported throughput stands for the bits received, over any interval but an empty one. */
  lemma MbpsIsBits(c: SubState, elapsed: nat)
    ensures FinalMbps(c, elapsed) * elapsed as real == if elapsed == 0 then 0.0 else (c.total * c.size * 8) as real
    ensures elapsed == 0 ==> FinalMbps(c, elapsed) == 0.0
  {
    assert (c.total * c.size) as real == c.total as real * c.size as real;
  }

  /**
   * With numbers below INT32_MAX every 32-bit value the callback computes (last_seq + 1 and the two
   * differences) is in range.
   */
  lemma {:induction false} CallbackStaysInInt32(arrivals: seq<Arrival>, exp: int, s: Sample)
    requires 0 <= exp < INT32_MAX && Numbered(arrivals, exp) && s.IsData() && 1 <= s.num <= exp
    ensures var last := Feed(ZERO, arrivals).lastSeq;
            0 <= last && last + 1 <= INT32_MAX && -INT32_MAX <= s.num - last - 1 <= INT32_MAX && 0 <= exp - last <= INT32_MAX
  {
    LastIsReceived(arrivals, exp);
  }
}
