/** The QNX adapter's clock conversion and split sleep, in 64- and 32-bit arithmetic. */
module QnxClock {
  import opened Samples

  const MICRO: nat := 1000000

  function Wrap64(x: nat): nat { x % TWO64 }

  /** The sum of the whole-second product and the converted remainder, every operation wrapping. */
  function Combine(seconds: nat, remainder: nat, c: nat): nat
    requires c > 0
  {
    Wrap64(Wrap64(seconds) + Wrap64(remainder) / c)
  }

  /** qnx_time_now_us over its two reads. */
  function TimeNowUs(cyclesPerSec: nat, now: nat): nat {
    if cyclesPerSec == 0 then 0
    else Combine(now / cyclesPerSec * MICRO, now % cyclesPerSec * MICRO, cyclesPerSec)
  }

  /** The exact conversion: cycles to whole microseconds. */
  function Exact(c: nat, now: nat): nat
    requires c > 0
  {
    now * MICRO / c
  }

  /** The counter frequencies for which no operation overflows. */
  predicate Convertible(c: nat) { MICRO <= c <= 18446744073710 }

  lemma DivUnique(n: nat, d: nat, q: int, r: int)
    requires d > 0 && n == q * d + r && 0 <= r < d
    ensures n / d == q
  {
    var q', r' := n / d, n % d;
    assert n == q' * d + r';
    assert q' < q ==> (q' + 1) * d <= q * d;
    assert q < q' ==> (q + 1) * d <= q' * d;
  }

  /** Splitting at whole seconds loses nothing. */
  lemma SplitIsExact(c: nat, now: nat)
    requires c > 0
    ensures now / c * MICRO + now % c * MICRO / c == Exact(c, now)
  {
    var q, r := now / c, now % c;
    var f, g := r * MICRO / c, r * MICRO % c;
    assert now == q * c + r;
    assert r * MICRO == f * c + g;
    assert now * MICRO == (q * MICRO + f) * c + g;
    DivUnique(now * MICRO, c, q * MICRO + f, g);
  }

  lemma ExactFits(c: nat, now: nat)
    requires MICRO <= c
    ensures Exact(c, now) <= now
  {
    DivBounds(now * MICRO, c);
    Products(now, Exact(c, now), c);
    Products(MICRO, c, now);
  }

  lemma DivBounds(p: nat, c: nat)
    requires c > 0
    ensures 0 <= p / c && p / c * c <= p < p / c * c + c
  {
    assert p == p / c * c + p % c;
  }

  lemma Products(a: int, b: int, k: nat)
    ensures a < b ==> a * k + k <= b * k
    ensures (b - a) * k == b * k - a * k
  {
    var d := b - a - 1;
    assert b * k == a * k + k + d * k;
    assert d >= 0 ==> d * k >= 0;
  }

  lemma NoOverflow(c: nat, now: nat)
    requires Convertible(c) && now < TWO64
    ensures TimeNowUs(c, now) == Exact(c, now)
  {
    DivBounds(now, c);
    var seconds: nat, remainder: nat := now / c * MICRO, now % c * MICRO;
    assert TimeNowUs(c, now) == Combine(seconds, remainder, c);
    assert seconds + remainder / c == Exact(c, now) by { SplitIsExact(c, now); }
    assert Exact(c, now) <= now by { ExactFits(c, now); }
    assert remainder < TWO64 by { RemainderSmall(c, now); }
    Unwrapped(seconds, remainder, c);
  }

  lemma RemainderSmall(c: nat, now: nat)
    requires Convertible(c)
    ensures now % c * MICRO < TWO64
  {
    var r := now % c;
    assert r < c;
  }

  lemma Unwrapped(seconds: nat, remainder: nat, c: nat)
    requires c > 0 && remainder < TWO64 && seconds + remainder / c < TWO64
    ensures Combine(seconds, remainder, c) == seconds + remainder / c
  {
    assert remainder / c >= 0;
    assert Wrap64(seconds) == seconds && Wrap64(remainder) == remainder;
  }

  /** Below a megahertz the largest cycle count converts to more than 64 bits hold. */
  lemma TooSlow(c: nat)
    requires 0 < c < MICRO
    ensures TimeNowUs(c, TWO64 - 1) != Exact(c, TWO64 - 1)
  {
    var n: nat := TWO64 - 1;
    QuotientAbove(n * MICRO, c, n * c + n);
    assert TimeNowUs(c, n) < TWO64;
  }

  /** n * MICRO is at least n * c + n, so the exact conversion is at least n + 1. */
  lemma QuotientAbove(p: nat, c: nat, low: nat)
    requires 0 < c < MICRO && low == (TWO64 - 1) * c + (TWO64 - 1) <= p
    ensures p / c >= TWO64
  {
    var q := p / c;
    DivBounds(p, c);
    Products(q, TWO64, c);
  }

  /** Above the bound the remainder product wraps, already in the first second after boot. */
  lemma TooFast(c: nat)
    requires 18446744073710 < c < TWO64
    ensures TimeNowUs(c, c - 1) != Exact(c, c - 1)
  {
    var n: nat := c - 1;
    var product := n * MICRO;
    assert n / c == 0 && n % c == n by { DivUnique(n, c, 0, n); }
    assert Exact(c, n) == MICRO - 1 by { DivUnique(product, c, MICRO - 1, c - MICRO); }
    assert product % TWO64 <= product - TWO64;
    WrapsBelow(product, c);
  }

  lemma WrapsBelow(product: nat, c: nat)
    requires c > 0 && product % TWO64 < (MICRO - 1) * c
    ensures Combine(0, product, c) < MICRO - 1
  {
    var wrapped := product % TWO64;
    DivBounds(wrapped, c);
    Products(MICRO - 1, wrapped / c, c);
  }

  /** The conversion is exact at every cycle count exactly for the convertible frequencies. */
  lemma ClockExactIff(c: nat)
    requires 0 < c < TWO64
    ensures (forall now: nat :: now < TWO64 ==> TimeNowUs(c, now) == Exact(c, now)) <==> Convertible(c)
  {
    if Convertible(c) {
      forall now: nat | now < TWO64 ensures TimeNowUs(c, now) == Exact(c, now) {
        NoOverflow(c, now);
      }
    } else if c < MICRO {
      TooSlow(c);
    } else {
      TooFast(c);
      var n: nat := c - 1;
      assert n < TWO64 && TimeNowUs(c, n) != Exact(c, n);
    }
  }

  /** A page without a frequency reads as zero at any time. */
  lemma NoFrequencyNoTime(a: nat, b: nat)
    ensures TimeNowUs(0, a) == TimeNowUs(0, b) == 0
  {
  }

  /** Readings never step back, and a difference of two is within a microsecond of the true interval. */
  lemma ReadingsMeasureIntervals(c: nat, a: nat, b: nat)
    requires Convertible(c) && a <= b < TWO64
    ensures TimeNowUs(c, a) <= TimeNowUs(c, b)
    ensures var d := TimeNowUs(c, b) - TimeNowUs(c, a);
            (d - 1) * c < (b - a) * MICRO < (d + 1) * c
  {
    NoOverflow(c, a);
    NoOverflow(c, b);
    FloorDifference(a * MICRO, b * MICRO, c);
  }

  lemma FloorDifference(p: nat, q: nat, c: nat)
    requires c > 0 && p <= q
    ensures p / c <= q / c
    ensures (q / c - p / c - 1) * c < q - p < (q / c - p / c + 1) * c
  {
    var x, y := p / c, q / c;
    DivBounds(p, c);
    DivBounds(q, c);
    Products(y, x, c);
    Products(x + 1, y, c);
    Products(x, y + 1, c);
  }

  // ---- Sleep -----------------------------------------------------------------------------

  /** qnx_sleep_us: whole milliseconds through one call, the rest in nanoseconds through another. */
  method SleepUs(us: nat) returns (ms: nat, ns: nat)
    requires us < TWO32
    ensures ms * 1000000 + ns == us * 1000
    ensures ns < 1000000 && ms < TWO32
  {
    ms := us / 1000;
    var rest := us % 1000;
    ns := 0;
    if rest > 0 {
      ns := rest * 1000 % TWO32;
    }
  }
}
