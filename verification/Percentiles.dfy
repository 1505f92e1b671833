/** The latency history: in-place sort, 32-bit index arithmetic, and what a percentile means. */
module Percentiles {
  import opened Samples

  ghost predicate Sorted(s: seq<nat>) {
    forall i, j :: 0 <= i < j < |s| ==> s[i] <= s[j]
  }

  function Insert(s: seq<nat>, x: nat): seq<nat> {
    if s == [] then [x]
    else if s[|s| - 1] <= x then s + [x]
    else Insert(s[..|s| - 1], x) + [s[|s| - 1]]
  }

  /** The history in ascending order. */
  function Ascending(h: seq<nat>): seq<nat> {
    if h == [] then [] else Insert(Ascending(h[..|h| - 1]), h[|h| - 1])
  }

  lemma {:induction false} AscendingPermutes(h: seq<nat>)
    ensures |Ascending(h)| == |h|
    ensures multiset(Ascending(h)) == multiset(h)
  {
    if h != [] {
      AscendingPermutes(h[..|h| - 1]);
      InsertPermutes(Ascending(h[..|h| - 1]), h[|h| - 1]);
      assert h == h[..|h| - 1] + [h[|h| - 1]];
    }
  }

  lemma {:induction false} InsertPermutes(s: seq<nat>, x: nat)
    ensures |Insert(s, x)| == |s| + 1
    ensures multiset(Insert(s, x)) == multiset(s) + multiset{x}
  {
    if s != [] && s[|s| - 1] > x {
      InsertPermutes(s[..|s| - 1], x);
      assert s == s[..|s| - 1] + [s[|s| - 1]];
    }
  }

  lemma {:induction false} InsertSorts(s: seq<nat>, x: nat)
    requires Sorted(s)
    ensures Sorted(Insert(s, x))
    ensures forall y :: y in Insert(s, x) <==> y == x || y in s
  {
    if s != [] {
      var init, last := s[..|s| - 1], s[|s| - 1];
      assert s == init + [last];
      if last > x {
        InsertSorts(init, x);
        var r := Insert(init, x);
        assert forall y :: y in init ==> y <= last;
        assert forall i :: 0 <= i < |r| ==> r[i] in r;
      }
    }
  }

  lemma {:induction false} AscendingIsSorted(h: seq<nat>)
    ensures Sorted(Ascending(h))
  {
    if h != [] {
      AscendingIsSorted(h[..|h| - 1]);
      InsertSorts(Ascending(h[..|h| - 1]), h[|h| - 1]);
    }
  }

  /** Insertion splits the sorted sequence at the place the shifting loop stops. */
  lemma {:induction false} InsertAt(s: seq<nat>, x: nat, j: nat)
    requires j <= |s|
    requires j == 0 || s[j - 1] <= x
    requires forall i :: j <= i < |s| ==> s[i] > x
    ensures Insert(s, x) == s[..j] + [x] + s[j..]
  {
    if j < |s| {
      var init, last := s[..|s| - 1], s[|s| - 1];
      InsertAt(init, x, j);
      assert init[..j] == s[..j] && init[j..] + [last] == s[j..];
      Associate(s[..j] + [x], init[j..], [last]);
    }
  }

  lemma Associate(x: seq<nat>, y: seq<nat>, z: seq<nat>)
    ensures (x + y) + z == x + (y + z)
  {
  }

  /** Shifts entry k of the array into the sorted prefix before it. */
  method ShiftIn(a: array<nat>, k: nat)
    requires k < a.Length
    modifies a
    ensures a[..k + 1] == Insert(old(a[..k]), old(a[k]))
    ensures a[k + 1..] == old(a[k + 1..])
  {
    var j, x := k, a[k];
    ghost var s := a[..k];
    while j > 0 && a[j - 1] > x
      invariant 0 <= j <= k
      invariant a[..j] == s[..j]
      invariant forall i :: j < i <= k ==> a[i] == s[i - 1]
      invariant forall i :: j <= i < k ==> s[i] > x
      invariant a[k + 1..] == old(a[k + 1..])
    {
      a[j] := a[j - 1];
      j := j - 1;
    }
    a[j] := x;
    assert j > 0 ==> a[j - 1] == s[j - 1];
    InsertAt(s, x, j);
    assert a[..k + 1] == s[..j] + [x] + s[j..];
  }

  /** Sorting the first n entries in place, as the engine asks of qsort. */
  method SortHistory(a: array<nat>, n: nat)
    requires n <= a.Length
    modifies a
    ensures a[..n] == Ascending(old(a[..n]))
    ensures a[n..] == old(a[n..])
  {
    for k := 0 to n
      invariant a[..k] == Ascending(old(a[..k]))
      invariant a[k..] == old(a[k..])
    {
      assert a[k..][0] == old(a[k..])[0];
      assert a[k..][1..] == a[k + 1..] && old(a[k..])[1..] == old(a[k + 1..]);
      assert old(a[..k + 1])[..k] == old(a[..k]);
      ShiftIn(a, k);
    }
  }

  // ---- Percentiles -----------------------------------------------------------------------

  /** n * q / 100 in uint32_t arithmetic. */
  function Index(n: nat, q: nat): nat { n * q % TWO32 / 100 }

  /** The index always lands in the history, even where the product wraps. */
  lemma IndexInRange(n: nat, q: nat)
    requires 0 < n < TWO32 && q <= 99
    ensures Index(n, q) < n
  {
    if n * q < TWO32 {
      assert n * q <= n * 99;
    } else {
      assert n * 99 >= n * q;
      assert n > TWO32 / 100;
    }
  }

  /** The three indices of a history of n entries are the true n * q / 100. */
  predicate ExactIndices(n: nat) {
    Index(n, 50) == n * 50 / 100 && Index(n, 90) == n * 90 / 100 && Index(n, 99) == n * 99 / 100
  }

  lemma SmallIndicesExact(n: nat)
    requires n <= 43383508
    ensures ExactIndices(n)
  {
    NoWrap32(n * 50);
    NoWrap32(n * 90);
    NoWrap32(n * 99);
  }

  lemma NoWrap32(x: nat)
    requires x < TWO32
    ensures x % TWO32 / 100 == x / 100
  {
  }

  /** No index wraps, for any fill of the history, exactly when the capacity is at most 43383508. */
  lemma IndexExactIff(capacity: nat)
    ensures (forall n: nat :: n <= capacity ==> ExactIndices(n)) <==> capacity <= 43383508
  {
    if capacity <= 43383508 {
      forall n: nat | n <= capacity ensures ExactIndices(n) {
        SmallIndicesExact(n);
      }
    } else {
      FirstWrap();
    }
  }

  lemma FirstWrap()
    ensures !ExactIndices(43383509)
  {
    assert Index(43383509, 99) == 0 && 43383509 * 99 / 100 == 42949673;
  }

  function Percentile(h: seq<nat>, q: nat): nat
    requires |h| < TWO32 && q <= 99
  {
    if h == [] then 0
    else
      IndexInRange(|h|, q);
      AscendingPermutes(h);
      Ascending(h)[Index(|h|, q)]
  }

  /** How many entries are below x. */
  function Below(h: seq<nat>, x: nat): (count: nat)
    ensures count <= |h|
  {
    if h == [] then 0 else Below(h[..|h| - 1], x) + (if h[|h| - 1] < x then 1 else 0)
  }

  lemma {:induction false} BelowInsert(s: seq<nat>, y: nat, x: nat)
    ensures Below(Insert(s, y), x) == Below(s, x) + (if y < x then 1 else 0)
  {
    if s != [] {
      var init, last := s[..|s| - 1], s[|s| - 1];
      if last > y {
        BelowInsert(init, y, x);
        assert Insert(s, y)[..|Insert(s, y)| - 1] == Insert(init, y);
      } else {
        assert (s + [y])[..|s|] == s;
      }
    }
  }

  lemma {:induction false} BelowAscending(h: seq<nat>, x: nat)
    ensures Below(Ascending(h), x) == Below(h, x)
  {
    if h != [] {
      BelowAscending(h[..|h| - 1], x);
      BelowInsert(Ascending(h[..|h| - 1]), h[|h| - 1], x);
    }
  }

  lemma {:induction false} BelowBounds(s: seq<nat>, k: nat, x: nat)
    requires k < |s| && Sorted(s)
    ensures s[k] >= x ==> Below(s, x) <= k
    ensures s[k] < x ==> Below(s, x) > k
  {
    var init := s[..|s| - 1];
    if k < |init| {
      BelowBounds(init, k, x);
    } else if init != [] {
      BelowBounds(init, k - 1, x);
    }
  }

  /** The entry of rank k has at most k entries below it and more than k at or below it. */
  lemma RankSplits(h: seq<nat>, k: nat)
    requires k < |h| == |Ascending(h)|
    ensures var p := Ascending(h)[k]; Below(h, p) <= k < Below(h, p + 1)
  {
    var p := Ascending(h)[k];
    AscendingIsSorted(h);
    BelowBounds(Ascending(h), k, p);
    BelowBounds(Ascending(h), k, p + 1);
    BelowAscending(h, p);
    BelowAscending(h, p + 1);
  }

  lemma PercentileEntry(h: seq<nat>, q: nat) returns (k: nat)
    requires 0 < |h| <= 43383508 && q in {50, 90, 99}
    ensures k == |h| * q / 100
    ensures k < |h| == |Ascending(h)| && Percentile(h, q) == Ascending(h)[k] && Percentile(h, q) in h
  {
    SmallIndicesExact(|h|);
    IndexInRange(|h|, q);
    k := Index(|h|, q);
    if q == 50 {} else if q == 90 {} else {}
    AscendingPermutes(h);
    assert Ascending(h)[k] in multiset(Ascending(h));
  }

  /** The reported percentile is an entry of the history that splits it at k = n * q / 100. */
  lemma PercentileSplits(h: seq<nat>, q: nat) returns (k: nat)
    requires 0 < |h| <= 43383508 && q in {50, 90, 99}
    ensures k == |h| * q / 100
    ensures Percentile(h, q) in h
    ensures Below(h, Percentile(h, q)) <= k < Below(h, Percentile(h, q) + 1)
  {
    k := PercentileEntry(h, q);
    RankSplits(h, k);
  }

  ghost predicate Ordered(h: seq<nat>)
    requires |h| < TWO32
  {
    Percentile(h, 50) <= Percentile(h, 90) <= Percentile(h, 99)
  }

  lemma PercentilesAscend(h: seq<nat>)
    requires |h| <= 43383508
    ensures Ordered(h)
  {
    if h != [] {
      var i := PercentileEntry(h, 50);
      var j := PercentileEntry(h, 90);
      var k := PercentileEntry(h, 99);
      RanksOrdered(|h|, i, j, k);
      EntriesOrdered(h, i, j, k);
    }
  }

  /** p50 <= p90 <= p99, and all of them at most any bound on the history. */
  lemma PercentilesOrdered(h: seq<nat>, bound: nat)
    requires |h| <= 43383508
    requires forall v :: v in h ==> v <= bound
    ensures Percentile(h, 50) <= Percentile(h, 90) <= Percentile(h, 99) <= bound
  {
    PercentilesAscend(h);
    if h != [] {
      var k := PercentileEntry(h, 99);
    }
  }

  lemma EntriesOrdered(h: seq<nat>, i: nat, j: nat, k: nat)
    requires i <= j <= k < |Ascending(h)|
    ensures Ascending(h)[i] <= Ascending(h)[j] <= Ascending(h)[k]
  {
    AscendingIsSorted(h);
  }

  lemma RanksOrdered(n: nat, i: nat, j: nat, k: nat)
    requires i == n * 50 / 100 && j == n * 90 / 100 && k == n * 99 / 100
    ensures i <= j <= k
  {
  }

  /** The percentiles ascend, for every history the array can hold, exactly for capacities without a wrap. */
  lemma AlwaysOrderedIff(capacity: nat)
    requires capacity < TWO32
    ensures (forall h: seq<nat> :: |h| <= capacity ==> Ordered(h)) <==> capacity <= 43383508
  {
    if capacity <= 43383508 {
      forall h: seq<nat> | |h| <= capacity ensures Ordered(h) {
        PercentilesAscend(h);
      }
    } else {
      WrapDisorders();
    }
  }

  /** Rising latencies that fill 43383509 entries: the 99th percentile comes out as the smallest. */
  lemma WrapDisorders()
    ensures var h := seq(43383509, i requires 0 <= i => i); !Ordered(h)
  {
    var h: seq<nat> := seq(43383509, i requires 0 <= i => i);
    AscendingOfSorted(h);
    assert Index(43383509, 90) == 39045158 && Index(43383509, 99) == 0;
    assert Percentile(h, 90) == h[39045158] && Percentile(h, 99) == h[0];
  }

  lemma {:induction false} AscendingOfSorted(h: seq<nat>)
    requires Sorted(h)
    ensures Ascending(h) == h
  {
    if h != [] {
      AscendingOfSorted(h[..|h| - 1]);
      assert h == h[..|h| - 1] + [h[|h| - 1]];
    }
  }
}
