/**
 Timestamps. Reading splits a signed 64-bit count of milliseconds with C's truncating
 division (result.c:177-183). Writing turns a Ruby Time into a double, multiplies by
 1000 and truncates (statement.c:128-137); every double operation rounds.
 */
module Timestamp {

  // ---- C arithmetic ----

  /** C's division: toward zero. */
  function TruncDiv(n: int, d: int): int
    requires d > 0
  {
    if n >= 0 then n / d else -((-n) / d)
  }

  /** C's remainder: it has the sign of the dividend. */
  function TruncMod(n: int, d: int): int
    requires d > 0
  {
    n - TruncDiv(n, d) * d
  }

  /** C's conversion of a double in range to an integer: toward zero. */
  function Trunc(x: real): int {
    if x >= 0.0 then x.Floor else -((-x).Floor)
  }

  predicate Int64(n: int) {
    -0x8000_0000_0000_0000 <= n < 0x8000_0000_0000_0000
  }

  // ---- reading ----

  /** The arguments of rb_time_new. */
  datatype RubyTime = RubyTime(seconds: int, micros: int)

  function ReadTime(ms: int): RubyTime {
    RubyTime(TruncDiv(ms, 1000), TruncMod(ms, 1000) * 1000)
  }

  /** Microseconds since the epoch that a Ruby Time built from these arguments stands for. */
  function Instant(t: RubyTime): int {
    t.seconds * 1_000_000 + t.micros
  }

  /** The split loses nothing. */
  lemma ReadInstant(ms: int)
    ensures Instant(ReadTime(ms)) == ms * 1000
  {
    if ms >= 0 {
      assert ms == ms / 1000 * 1000 + ms % 1000;
    } else {
      assert -ms == (-ms) / 1000 * 1000 + (-ms) % 1000;
    }
  }

  /**
   The split is exact for every 64-bit value, negative ones included: the Time stands
   for exactly that many milliseconds, the microsecond part stays strictly below one
   second, the two parts never have opposite signs, and nothing overflows.
   */
  lemma ReadIsExact(ms: int)
    requires Int64(ms)
    ensures var t := ReadTime(ms);
      && Instant(t) == ms * 1000
      && -1_000_000 < t.micros < 1_000_000
      && (t.seconds > 0 ==> t.micros >= 0) && (t.seconds < 0 ==> t.micros <= 0)
      && Int64(t.seconds) && Int64(t.micros)
  {
    ReadInstant(ms);
  }

  /** Hence reading is injective and keeps the order of time. */
  lemma ReadIsMonotone(m: int, n: int)
    requires Int64(m) && Int64(n)
    ensures m < n <==> Instant(ReadTime(m)) < Instant(ReadTime(n))
    ensures m == n <==> ReadTime(m) == ReadTime(n)
  {
    ReadIsExact(m);
    ReadIsExact(n);
  }

  // ---- writing ----

  const TWO_51: int := 0x8_0000_0000_0000
  const TWO_53: int := 0x20_0000_0000_0000

  function Whole(n: int): real {
    n as real
  }

  function Abs(x: real): real {
    if x >= 0.0 then x else -x
  }

  /**
   What the write lemmas need of rounding to nearest (section 4.3.1 of IEEE 754-2008):
   monotone, exact on integers up to 2^53, and off by at most one part in 2^53 on
   everything of magnitude at least one thousandth.
   */
  ghost predicate Rounds(rnd: real -> real) {
    && (forall x, y :: x <= y ==> rnd(x) <= rnd(y))
    && (forall n: int :: -TWO_53 <= n <= TWO_53 ==> rnd(Whole(n)) == Whole(n))
    && (forall x :: Abs(x) >= 0.001 ==> Abs(rnd(x) - x) * TWO_53 as real <= Abs(x))
  }

  /**
   What they need of Time#to_f: exact on whole seconds up to 2^53, and within two such
   roundings of the instant otherwise.
   */
  ghost predicate Clock(toF: real -> real) {
    && (forall n: int :: -TWO_53 <= n <= TWO_53 ==> toF(Whole(n)) == Whole(n))
    && (forall x :: Abs(x) >= 0.001 ==> Abs(toF(x) - x) * TWO_53 as real <= 2.5 * Abs(x))
  }

  /** (cass_int64_t)(seconds * 1000), with seconds a double. */
  function ToMillis(rnd: real -> real, seconds: real): int {
    Trunc(rnd(seconds * 1000.0))
  }

  /** The milliseconds stored for a Time of ms milliseconds: Time#to_f rounds, the product rounds, the cast truncates. */
  function Written(rnd: real -> real, toF: real -> real, ms: int): int {
    ToMillis(rnd, toF(ms as real / 1000.0))
  }

  lemma ClockIsClose(toF: real -> real, ms: int)
    requires Clock(toF) && -TWO_51 <= ms <= TWO_51 && ms != 0
    ensures Abs(toF(ms as real / 1000.0) * 1000.0 - ms as real) <= 0.625
  {
    var x := ms as real / 1000.0;
    assert Abs(x) >= 0.001;
    assert Abs(toF(x) - x) * TWO_53 as real <= 2.5 * Abs(x);
  }

  /** The product is less than one millisecond off. */
  lemma ProductIsClose(rnd: real -> real, toF: real -> real, ms: int)
    requires Rounds(rnd) && Clock(toF) && -TWO_51 <= ms <= TWO_51
    ensures var z := rnd(toF(ms as real / 1000.0) * 1000.0); (ms - 1) as real < z < (ms + 1) as real
  {
    if ms == 0 {
      assert rnd(Whole(0)) == 0.0 && toF(Whole(0)) == 0.0;
    } else {
      ClockIsClose(toF, ms);
      RoundedProduct(rnd, toF(ms as real / 1000.0) * 1000.0, ms);
    }
  }

  lemma RoundedProduct(rnd: real -> real, y: real, ms: int)
    requires Rounds(rnd) && -TWO_51 <= ms <= TWO_51 && ms != 0 && Abs(y - ms as real) <= 0.625
    ensures (ms - 1) as real < rnd(y) < (ms + 1) as real
  {
    assert Abs(y) >= 0.001;
    assert Abs(rnd(y) - y) * TWO_53 as real <= Abs(y);
  }

  lemma TruncBetween(z: real, n: int)
    requires (n - 1) as real < z < (n + 1) as real
    ensures n > 0 ==> n - 1 <= Trunc(z) <= n
    ensures n < 0 ==> n <= Trunc(z) <= n + 1
    ensures n == 0 ==> Trunc(z) == 0
  {
  }

  /** A millisecond value is stored as itself or one millisecond nearer zero. */
  lemma WriteErrorBound(rnd: real -> real, toF: real -> real, ms: int)
    requires Rounds(rnd) && Clock(toF) && -TWO_51 <= ms <= TWO_51
    ensures ms > 0 ==> ms - 1 <= Written(rnd, toF, ms) <= ms
    ensures ms < 0 ==> ms <= Written(rnd, toF, ms) <= ms + 1
    ensures ms == 0 ==> Written(rnd, toF, ms) == 0
  {
    ProductIsClose(rnd, toF, ms);
    TruncBetween(rnd(toF(ms as real / 1000.0) * 1000.0), ms);
  }

  /** Whole seconds are stored exactly while the milliseconds fit 53 bits. */
  lemma WholeSecondsAreExact(rnd: real -> real, toF: real -> real, seconds: int)
    requires Rounds(rnd) && Clock(toF) && -TWO_53 <= seconds * 1000 <= TWO_53
    ensures Written(rnd, toF, seconds * 1000) == seconds * 1000
  {
    assert (seconds * 1000) as real / 1000.0 == Whole(seconds);
    assert Whole(seconds) * 1000.0 == Whole(seconds * 1000);
    assert toF(Whole(seconds)) == Whole(seconds) && rnd(Whole(seconds * 1000)) == Whole(seconds * 1000);
  }

  /** Values stored after n rounds of reading a timestamp and binding it again. */
  function Rewritten(rnd: real -> real, toF: real -> real, ms: int, n: nat): int
    decreases n
  {
    if n == 0 then ms else Rewritten(rnd, toF, Written(rnd, toF, ms), n - 1)
  }

  /** The whole second on the zero side of ms. */
  function SecondOf(ms: int): int {
    TruncDiv(ms, 1000) * 1000
  }

  lemma WithinOneStaysInSecond(ms: int, w: int)
    requires ms > 0 ==> ms - 1 <= w <= ms
    requires ms < 0 ==> ms <= w <= ms + 1
    requires ms == SecondOf(ms) ==> w == ms
    ensures ms >= 0 ==> SecondOf(ms) <= w <= ms
    ensures ms <= 0 ==> ms <= w <= SecondOf(ms)
    ensures SecondOf(w) == SecondOf(ms)
  {
  }

  lemma WriteStaysInSecond(rnd: real -> real, toF: real -> real, ms: int)
    requires Rounds(rnd) && Clock(toF) && -TWO_51 <= ms <= TWO_51
    ensures ms >= 0 ==> SecondOf(ms) <= Written(rnd, toF, ms) <= ms
    ensures ms <= 0 ==> ms <= Written(rnd, toF, ms) <= SecondOf(ms)
    ensures SecondOf(Written(rnd, toF, ms)) == SecondOf(ms)
  {
    WriteErrorBound(rnd, toF, ms);
    if ms == SecondOf(ms) {
      WholeSecondsAreExact(rnd, toF, TruncDiv(ms, 1000));
    }
    WithinOneStaysInSecond(ms, Written(rnd, toF, ms));
  }

  /** Reading and binding again moves only toward zero, with every round, and never crosses a whole second. */
  lemma {:induction false} RewritingStaysInSecond(rnd: real -> real, toF: real -> real, ms: int, n: nat)
    requires Rounds(rnd) && Clock(toF) && -TWO_51 <= ms <= TWO_51
    ensures ms >= 0 ==> SecondOf(ms) <= Rewritten(rnd, toF, ms, n + 1) <= Rewritten(rnd, toF, ms, n) <= ms
    ensures ms <= 0 ==> ms <= Rewritten(rnd, toF, ms, n) <= Rewritten(rnd, toF, ms, n + 1) <= SecondOf(ms)
    decreases n
  {
    WriteStaysInSecond(rnd, toF, ms);
    if n > 0 {
      RewritingStaysInSecond(rnd, toF, Written(rnd, toF, ms), n - 1);
    } else {
      assert Rewritten(rnd, toF, ms, 1) == Rewritten(rnd, toF, Written(rnd, toF, ms), 0);
    }
  }

  // ---- ways to compute Time#to_f ----

  /** One rounding of the exact number of seconds. */
  lemma OneRoundingIsClock(rnd: real -> real)
    requires Rounds(rnd)
    ensures Clock(rnd)
  {
  }

  /** A count of nanoseconds made a double and divided, unless the seconds are whole: two roundings. */
  function NanosToF(rnd: real -> real): real -> real {
    (x: real) => if x.Floor as real == x then rnd(x) else rnd(rnd(x * 1000000000.0) / 1000000000.0)
  }

  /** The count of nanoseconds, as a double, is far from zero and close. */
  lemma NanosAreClose(rnd: real -> real, x: real)
    requires Rounds(rnd) && Abs(x) >= 0.001
    ensures var q := rnd(x * 1000000000.0) / 1000000000.0; Abs(q) >= 0.001 && Abs(q - x) * TWO_53 as real <= Abs(x)
  {
    var n := x * 1000000000.0;
    assert Abs(n) >= 0.001;
    assert Abs(rnd(n) - n) * TWO_53 as real <= Abs(n);
    assert rnd(Whole(1000000)) == Whole(1000000) && rnd(Whole(-1000000)) == Whole(-1000000);
    if x > 0.0 {
      assert Whole(1000000) <= n;
    } else {
      assert n <= Whole(-1000000);
    }
  }

  lemma TwoRoundings(rnd: real -> real, x: real)
    requires Rounds(rnd) && Abs(x) >= 0.001
    ensures Abs(rnd(rnd(x * 1000000000.0) / 1000000000.0) - x) * TWO_53 as real <= 2.5 * Abs(x)
  {
    NanosAreClose(rnd, x);
    SecondRounding(rnd, x, rnd(x * 1000000000.0) / 1000000000.0);
  }

  lemma SecondRounding(rnd: real -> real, x: real, q: real)
    requires Rounds(rnd) && Abs(q) >= 0.001 && Abs(q - x) * TWO_53 as real <= Abs(x)
    ensures Abs(rnd(q) - x) * TWO_53 as real <= 2.5 * Abs(x)
  {
    RoundedIsClose(rnd, q);
    SumOfErrors(x, q, rnd(q));
  }

  lemma RoundedIsClose(rnd: real -> real, q: real)
    requires Rounds(rnd) && Abs(q) >= 0.001
    ensures Abs(rnd(q) - q) * TWO_53 as real <= Abs(q)
  {
  }

  lemma SumOfErrors(x: real, q: real, r: real)
    requires Abs(q - x) * TWO_53 as real <= Abs(x) && Abs(r - q) * TWO_53 as real <= Abs(q)
    ensures Abs(r - x) * TWO_53 as real <= 2.5 * Abs(x)
  {
  }

  lemma TwoRoundingsAreClock(rnd: real -> real)
    requires Rounds(rnd)
    ensures Clock(NanosToF(rnd))
  {
    forall n: int | -TWO_53 <= n <= TWO_53 ensures NanosToF(rnd)(Whole(n)) == Whole(n) {
      assert Whole(n).Floor == n;
    }
    forall x: real | Abs(x) >= 0.001 ensures Abs(NanosToF(rnd)(x) - x) * TWO_53 as real <= 2.5 * Abs(x) {
      if x.Floor as real != x {
        TwoRoundings(rnd, x);
      }
    }
  }

  // ---- roundings that are exact on a grid ----

  predicate IsWhole(x: real) {
    x.Floor as real == x
  }

  /** n parts of size 2^-j. */
  function Dyadic(n: int, j: nat): real {
    if j == 0 then n as real else Dyadic(n, j - 1) / 2.0
  }

  /** x has at most k binary digits after the point. */
  predicate OnGrid(k: nat, x: real) {
    if k == 0 then IsWhole(x) else OnGrid(k - 1, x * 2.0)
  }

  /** n * 2^k. */
  function Shifted(n: int, k: nat): int
    decreases k
  {
    if k == 0 then n else Shifted(2 * n, k - 1)
  }

  /** Exact on the doubles that have at most k binary digits after the point, as every rounding to doubles is. */
  ghost predicate ExactOnGrid(rnd: real -> real, k: nat) {
    forall n: int, j: nat :: j <= k && -TWO_53 <= n <= TWO_53 ==> rnd(Dyadic(n, j)) == Dyadic(n, j)
  }

  lemma {:induction false} WholeIsOnGrid(n: int, k: nat)
    ensures OnGrid(k, n as real)
    decreases k
  {
    if k > 0 {
      assert n as real * 2.0 == (2 * n) as real;
      WholeIsOnGrid(2 * n, k - 1);
    }
  }

  lemma {:induction false} DyadicIsOnGrid(n: int, j: nat, k: nat)
    requires j <= k
    ensures OnGrid(k, Dyadic(n, j))
    decreases k
  {
    if j == 0 {
      WholeIsOnGrid(n, k);
    } else {
      assert Dyadic(n, j) * 2.0 == Dyadic(n, j - 1);
      DyadicIsOnGrid(n, j - 1, k - 1);
    }
  }

  lemma {:induction false} NegatedDyadic(n: int, j: nat)
    ensures -Dyadic(n, j) == Dyadic(-n, j)
    decreases j
  {
    if j > 0 {
      NegatedDyadic(n, j - 1);
    }
  }

  lemma WholeThousandths(n: int)
    ensures IsWhole(n as real / 1000.0) <==> n % 1000 == 0
  {
    var x := n as real / 1000.0;
    if IsWhole(x) {
      assert (x.Floor * 1000) as real == n as real;
    }
    if n % 1000 == 0 {
      assert x == (n / 1000) as real;
    }
  }

  lemma {:induction false} MillisOnGrid(n: int, k: nat)
    ensures OnGrid(k, n as real / 1000.0) <==> Shifted(n, k) % 1000 == 0
    decreases k
  {
    if k == 0 {
      WholeThousandths(n);
    } else {
      assert n as real / 1000.0 * 2.0 == (2 * n) as real / 1000.0;
      MillisOnGrid(2 * n, k - 1);
    }
  }

  lemma {:induction false} NegatedShift(n: int, k: nat)
    ensures Shifted(-n, k) == -Shifted(n, k)
    decreases k
  {
    if k > 0 {
      NegatedShift(2 * n, k - 1);
    }
  }

  // ---- the rounding that is as far off as it may be ----

  /** Toward zero, as far off as Rounds allows, but on the grid. */
  function Low(k: nat): real -> real {
    (x: real) => if x >= 0.0 then LowOf(k, x) else -LowOf(k, -x)
  }

  /** The next point of the grid below. */
  function GridBelow(k: nat, x: real): real {
    if k == 0 then x.Floor as real else GridBelow(k - 1, x * 2.0) / 2.0
  }

  function LowOf(k: nat, x: real): real {
    if GridBelow(k, x) >= x - x / TWO_53 as real then GridBelow(k, x) else x - x / TWO_53 as real
  }

  lemma {:induction false} GridIsBelow(k: nat, x: real)
    ensures GridBelow(k, x) <= x && (GridBelow(k, x) == x <==> OnGrid(k, x))
    decreases k
  {
    if k > 0 {
      GridIsBelow(k - 1, x * 2.0);
    }
  }

  lemma FloorIsMonotone(x: real, y: real)
    requires x <= y
    ensures x.Floor <= y.Floor
  {
  }

  lemma {:induction false} GridIsMonotone(k: nat, x: real, y: real)
    requires x <= y
    ensures GridBelow(k, x) <= GridBelow(k, y)
    decreases k
  {
    if k == 0 {
      FloorIsMonotone(x, y);
    } else {
      var a, b := x * 2.0, y * 2.0;
      GridIsMonotone(k - 1, a, b);
    }
  }

  lemma LowIsMonotone(k: nat, x: real, y: real)
    requires 0.0 <= x <= y
    ensures 0.0 <= LowOf(k, x) <= LowOf(k, y)
  {
    GridIsMonotone(k, x, y);
    assert 0.0 <= x - x / TWO_53 as real <= y - y / TWO_53 as real;
  }

  lemma LowIsClose(k: nat, x: real)
    requires x >= 0.0
    ensures 0.0 <= (x - LowOf(k, x)) * TWO_53 as real <= x
    ensures x > 0.0 && !OnGrid(k, x) ==> LowOf(k, x) < x
    ensures OnGrid(k, x) ==> LowOf(k, x) == x
  {
    GridIsBelow(k, x);
    assert x / TWO_53 as real * TWO_53 as real == x;
  }

  lemma LowIsMonotoneEverywhere(k: nat, x: real, y: real)
    requires x <= y
    ensures Low(k)(x) <= Low(k)(y)
  {
    if x >= 0.0 {
      LowIsMonotone(k, x, y);
    } else if y < 0.0 {
      LowIsMonotone(k, -y, -x);
    } else {
      LowIsMonotone(k, 0.0, -x);
      LowIsMonotone(k, 0.0, y);
    }
  }

  lemma LowKeepsGrid(k: nat, n: int, j: nat)
    requires j <= k
    ensures Low(k)(Dyadic(n, j)) == Dyadic(n, j)
  {
    var x := Dyadic(n, j);
    if x >= 0.0 {
      DyadicIsOnGrid(n, j, k);
      LowIsClose(k, x);
    } else {
      NegatedDyadic(n, j);
      DyadicIsOnGrid(-n, j, k);
      LowIsClose(k, -x);
    }
  }

  lemma LowIsCloseEverywhere(k: nat, x: real)
    ensures Abs(Low(k)(x) - x) * TWO_53 as real <= Abs(x)
  {
    if x >= 0.0 {
      LowIsClose(k, x);
      assert Abs(Low(k)(x) - x) == x - LowOf(k, x);
    } else {
      LowIsClose(k, -x);
      assert Abs(Low(k)(x) - x) == -x - LowOf(k, -x);
    }
  }

  lemma LowRounds(k: nat)
    ensures Rounds(Low(k)) && ExactOnGrid(Low(k), k)
  {
    forall x: real, y: real | x <= y ensures Low(k)(x) <= Low(k)(y) {
      LowIsMonotoneEverywhere(k, x, y);
    }
    forall n: int, j: nat | j <= k ensures Low(k)(Dyadic(n, j)) == Dyadic(n, j) {
      LowKeepsGrid(k, n, j);
    }
    forall n: int ensures Low(k)(Whole(n)) == Whole(n) {
      assert Whole(n) == Dyadic(n, 0);
    }
    forall x: real ensures Abs(Low(k)(x) - x) * TWO_53 as real <= Abs(x) {
      LowIsCloseEverywhere(k, x);
    }
  }

  /** What Low makes of the product, if ms is positive and not on the grid. */
  lemma LowLosesSome(k: nat, ms: nat)
    requires Shifted(ms, k) % 1000 != 0
    ensures 0.0 <= LowOf(k, LowOf(k, ms as real / 1000.0) * 1000.0) < ms as real
  {
    var x := ms as real / 1000.0;
    MillisOnGrid(ms, k);
    LowIsClose(k, x);
    LowIsMonotone(k, 0.0, x);
    var y := LowOf(k, x) * 1000.0;
    assert y < ms as real;
    LowIsClose(k, y);
    LowIsMonotone(k, 0.0, y);
  }

  lemma LowWritesLess(k: nat, ms: nat)
    requires Shifted(ms, k) % 1000 != 0
    ensures 0 <= Written(Low(k), Low(k), ms) < ms
  {
    LowLosesSome(k, ms);
    LowIsMonotone(k, 0.0, ms as real / 1000.0);
    assert Written(Low(k), Low(k), ms) == LowOf(k, LowOf(k, ms as real / 1000.0) * 1000.0).Floor;
  }

  lemma NegatedLow(k: nat, x: real)
    requires x >= 0.0
    ensures Low(k)(-x) == -Low(k)(x) && Low(k)(x) >= 0.0
  {
    LowIsClose(k, 0.0);
    LowIsMonotone(k, 0.0, x);
  }

  lemma NegatedTrunc(z: real)
    requires z >= 0.0
    ensures Trunc(-z) == -Trunc(z)
  {
  }

  lemma NegatedMillis(k: nat, a: real)
    requires a >= 0.0
    ensures ToMillis(Low(k), -a) == -ToMillis(Low(k), a)
  {
    var y := a * 1000.0;
    assert (-a) * 1000.0 == -y;
    NegatedLow(k, y);
    NegatedTrunc(Low(k)(y));
  }

  lemma NegatedWrite(k: nat, n: int)
    requires n <= 0
    ensures Written(Low(k), Low(k), n) == -Written(Low(k), Low(k), -n)
  {
    var x := (-n) as real / 1000.0;
    assert n as real / 1000.0 == -x;
    NegatedLow(k, x);
    NegatedMillis(k, Low(k)(x));
  }

  /** With that rounding, what is not on the grid is stored nearer zero. */
  lemma LowLoses(k: nat, ms: int)
    requires Shifted(ms, k) % 1000 != 0
    ensures var w := Written(Low(k), Low(k), ms); if ms > 0 then 0 <= w < ms else ms < w <= 0
  {
    if ms > 0 {
      LowWritesLess(k, ms);
    } else {
      NegatedShift(ms, k);
      LowWritesLess(k, -ms);
      NegatedWrite(k, ms);
    }
  }

  // ---- exactly when nothing is lost ----

  /** Whatever way to_f is computed within two roundings, this Time is stored as it is. */
  ghost predicate StoredAsIs(ms: int) {
    forall rnd: real -> real, toF: real -> real :: Rounds(rnd) && Clock(toF) ==> Written(rnd, toF, ms) == ms
  }

  lemma LostByLow(ms: int)
    requires ms % 1000 != 0
    ensures !StoredAsIs(ms)
  {
    var rnd := Low(0);
    LowRounds(0);
    OneRoundingIsClock(rnd);
    LowLoses(0, ms);
    assert Written(rnd, rnd, ms) != ms;
  }

  /** Exactly the Times of whole seconds are stored as they are by every platform. */
  lemma StoredAsIsIffWholeSecond(ms: int)
    requires -TWO_51 <= ms <= TWO_51
    ensures StoredAsIs(ms) <==> ms % 1000 == 0
  {
    if ms % 1000 == 0 {
      forall rnd: real -> real, toF: real -> real | Rounds(rnd) && Clock(toF) ensures Written(rnd, toF, ms) == ms {
        assert ms / 1000 * 1000 == ms;
        WholeSecondsAreExact(rnd, toF, ms / 1000);
      }
    } else {
      LostByLow(ms);
    }
  }

  lemma MillisAreDyadic(ms: int, j: nat, n: int)
    requires j <= 3 && n * 1000 == Shifted(ms, j) && -TWO_51 <= ms <= TWO_51
    ensures Dyadic(n, j) == ms as real / 1000.0 && -TWO_53 <= n <= TWO_53
  {
    assert Dyadic(n, 0) == n as real && Dyadic(n, 1) == n as real / 2.0 && Dyadic(n, 2) == n as real / 4.0;
    assert Dyadic(n, 3) == Dyadic(n, 2) / 2.0;
    assert Shifted(ms, 1) == Shifted(2 * ms, 0) == 2 * ms;
    assert Shifted(ms, 2) == Shifted(2 * ms, 1) == Shifted(4 * ms, 0) == 4 * ms;
    assert Shifted(ms, 3) == Shifted(2 * ms, 2) == Shifted(4 * ms, 1) == Shifted(8 * ms, 0) == 8 * ms;
  }

  lemma GridIsExact(rnd: real -> real, ms: int, j: nat)
    requires Rounds(rnd) && ExactOnGrid(rnd, j) && j <= 3 && -TWO_51 <= ms <= TWO_51 && Shifted(ms, j) % 1000 == 0
    ensures Written(rnd, rnd, ms) == ms
  {
    var n := Shifted(ms, j) / 1000;
    MillisAreDyadic(ms, j, n);
    assert rnd(Dyadic(n, j)) == Dyadic(n, j);
    assert ms as real / 1000.0 * 1000.0 == Whole(ms) && rnd(Whole(ms)) == Whole(ms);
  }

  lemma MultiplesOf125(n: int)
    ensures 2 * n % 125 == 0 <==> n % 125 == 0
  {
    var q, r := n / 125, n % 125;
    assert 2 * n == 125 * (2 * q) + 2 * r;
    assert 2 * n % 125 == 2 * r % 125;
  }

  lemma EightTimes(n: int)
    ensures 8 * n % 1000 == 0 <==> n % 125 == 0
  {
    var q, r := n / 125, n % 125;
    assert 8 * n == 1000 * q + 8 * r;
    assert 8 * n % 1000 == 8 * r % 1000 == 8 * r;
  }

  /** Three binary digits after the point are all that milliseconds can use. */
  lemma {:induction false} ThreeDigitsAreEnough(n: int, k: nat)
    requires k >= 3
    ensures Shifted(n, k) % 1000 == 0 <==> n % 125 == 0
    decreases k
  {
    if k == 3 {
      EightTimes(n);
      assert Shifted(n, 3) == Shifted(2 * n, 2) == Shifted(4 * n, 1) == Shifted(8 * n, 0) == 8 * n;
    } else {
      MultiplesOf125(n);
      ThreeDigitsAreEnough(2 * n, k - 1);
    }
  }

  /**
   If to_f is one rounding, and rounding is exact on doubles with k binary digits after the
   point: exactly the Times on that grid are stored as they are by all such roundings. For
   the doubles themselves, with three digits or more, these are the multiples of an eighth
   of a second.
   */
  lemma StoredAsIsIffOnGrid(ms: int, k: nat)
    requires -TWO_51 <= ms <= TWO_51
    ensures (forall rnd: real -> real :: Rounds(rnd) && ExactOnGrid(rnd, k) ==> Written(rnd, rnd, ms) == ms) <==> Shifted(ms, k) % 1000 == 0
    ensures k >= 3 ==> (Shifted(ms, k) % 1000 == 0 <==> ms % 125 == 0)
  {
    if k >= 3 {
      ThreeDigitsAreEnough(ms, k);
      ThreeDigitsAreEnough(ms, 3);
    }
    if Shifted(ms, k) % 1000 == 0 {
      forall rnd: real -> real | Rounds(rnd) && ExactOnGrid(rnd, k) ensures Written(rnd, rnd, ms) == ms {
        GridIsExact(rnd, ms, if k >= 3 then 3 else k);
      }
    } else {
      LowRounds(k);
      LowLoses(k, ms);
      assert Rounds(Low(k)) && ExactOnGrid(Low(k), k) && Written(Low(k), Low(k), ms) != ms;
    }
  }

  // ---- a millisecond is really lost ----

  const DOUBLE_1_001: real := 4508103226997866.0 / 4503599627370496.0
  const DOUBLE_0_009: real := 5188146770730811.0 / 576460752303423488.0
  const DOUBLE_PRODUCT: real := 8804889115230207.0 / 8796093022208.0

  /**
   These are the doubles nearest to 1.001 and to its product with 1000, and to 0.009, whose
   product is nearest to 9: each is within half a unit in the last place.
   */
  lemma NearestDoubles()
    ensures Abs(DOUBLE_1_001 - 1.001) * 9007199254740992.0 < 1.0
    ensures Abs(DOUBLE_PRODUCT - DOUBLE_1_001 * 1000.0) * 17592186044416.0 < 1.0
    ensures Abs(DOUBLE_0_009 - 0.009) * 1152921504606846976.0 < 1.0
    ensures Abs(9.0 - DOUBLE_0_009 * 1000.0) * 1125899906842624.0 < 1.0
  {
  }

  /** So with IEEE rounding a Time of 1001 ms is stored as 1000 ms: the error bound is reached. */
  lemma OneMillisecondIsLost(rnd: real -> real, toF: real -> real)
    requires toF(1.001) == DOUBLE_1_001
    requires rnd(DOUBLE_1_001 * 1000.0) == DOUBLE_PRODUCT
    ensures Written(rnd, toF, 1001) == 1000
  {
    assert 1001 as real / 1000.0 == 1.001;
  }

  /** The rounding of the product can also save a millisecond: the double for 9 ms lies below it, and yet 9 is stored. */
  lemma OneMillisecondIsSaved(rnd: real -> real, toF: real -> real)
    requires toF(0.009) == DOUBLE_0_009
    requires rnd(DOUBLE_0_009 * 1000.0) == 9.0
    ensures DOUBLE_0_009 * 1000.0 < 9.0 && Written(rnd, toF, 9) == 9
  {
    assert 9 as real / 1000.0 == 0.009;
  }
}
