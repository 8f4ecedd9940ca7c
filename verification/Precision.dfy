/** Rounding to exchange increments (app/utils/precision.py). */
module Precision {
  import opened Common

  /** Round half away from zero: decimal's ROUND_HALF_UP. */
  function RoundHalfUp(x: real): int {
    if x >= 0.0 then (x + 0.5).Floor else -((0.5 - x).Floor)
  }

  /** Truncation towards zero: decimal's integer division. */
  function Truncate(x: real): int {
    if x >= 0.0 then x.Floor else -((-x).Floor)
  }

  /** Round half to even at eight decimals: Python's round(x, 8). */
  function Round8(x: real): real {
    var scaled := x * 100000000.0;
    var low := scaled.Floor;
    var rest := scaled - low as real;
    var steps := if rest < 0.5 then low else if rest > 0.5 then low + 1 else if low % 2 == 0 then low else low + 1;
    steps as real / 100000000.0
  }

  function Tolerance(increment: real): real {
    Max(Abs(increment) * 0.0000000001, 0.000000000001)
  }

  function RoundToIncrement(value: real, increment: real): real {
    if increment <= 0.0 then value
    else
      var nearest := Multiple(RoundHalfUp(value / increment), increment);
      if Abs(value - nearest) <= Tolerance(increment) then nearest
      else Multiple(Truncate(value / increment), increment)
  }

  predicate EnforceMinNotional(quantity: real, price: real, minNotional: real) {
    quantity * price >= minNotional
  }

  function Multiple(k: int, increment: real): real {
    k as real * increment
  }

  ghost predicate IsMultiple(x: real, increment: real) {
    exists k: int :: x == Multiple(k, increment)
  }

  /** `r` is the largest multiple of the increment that does not exceed `bound`. */
  ghost predicate LargestMultipleUpTo(r: real, bound: real, increment: real) {
    && IsMultiple(r, increment)
    && r <= bound
    && forall k: int :: Multiple(k, increment) <= bound ==> Multiple(k, increment) <= r
  }

  lemma Scale(a: real, b: real, k: real)
    requires k > 0.0
    ensures a < b <==> a * k < b * k
  {
    assert b * k - a * k == (b - a) * k;
  }

  /** Scale for products that are known by another name. */
  lemma ScaleNamed(a: real, b: real, k: real, ak: real, bk: real)
    requires k > 0.0 && ak == a * k && bk == b * k
    ensures a < b <==> ak < bk
  {
    Scale(a, b, k);
  }

  lemma MultipleOrder(a: int, b: int, increment: real)
    requires increment > 0.0
    ensures a < b <==> Multiple(a, increment) < Multiple(b, increment)
  {
    Scale(a as real, b as real, increment);
  }

  lemma NextMultiple(k: int, increment: real)
    ensures Multiple(k + 1, increment) == Multiple(k, increment) + increment
  {
  }

  lemma Quotient(value: real, increment: real)
    requires increment > 0.0
    ensures value / increment * increment == value
  {
  }

  /** Where a non-negative value lies against the two multiples that surround it. */
  lemma Bracket(value: real, increment: real) returns (n: int, t: int)
    requires increment > 0.0 && value >= 0.0
    ensures n == RoundHalfUp(value / increment) && t == Truncate(value / increment)
    ensures 0 <= t <= n <= t + 1
    ensures Multiple(t, increment) <= value < Multiple(t, increment) + increment
    ensures n == t ==> value - Multiple(t, increment) < 0.5 * increment
    ensures n == t + 1 ==> value - Multiple(t, increment) >= 0.5 * increment
  {
    var x := value / increment;
    Quotient(value, increment);
    Scale(x, 0.0, increment);
    n, t := RoundHalfUp(x), Truncate(x);
    var f := t as real;
    assert f <= x < f + 1.0 && (n == t <==> x < f + 0.5) && (n == t || n == t + 1);
    ScaleGap(x, f, value, Multiple(t, increment), increment);
  }

  lemma ScaleGap(x: real, f: real, value: real, base: real, k: real)
    requires k > 0.0 && value == x * k && base == f * k
    ensures x >= f <==> value >= base
    ensures x < f + 1.0 <==> value < base + k
    ensures x < f + 0.5 <==> value - base < 0.5 * k
  {
    var gap := x - f;
    assert gap * k == value - base;
    ScaleNamed(gap, 0.0, k, value - base, 0.0);
    ScaleNamed(gap, 1.0, k, value - base, k);
    ScaleNamed(gap, 0.5, k, value - base, 0.5 * k);
  }

  /** A multiple at most `bound`, with the next one above it, is the largest up to `bound`. */
  lemma IsLargest(m: int, bound: real, increment: real)
    requires increment > 0.0
    requires Multiple(m, increment) <= bound < Multiple(m, increment) + increment
    ensures LargestMultipleUpTo(Multiple(m, increment), bound, increment)
  {
    NextMultiple(m, increment);
    forall k: int | Multiple(k, increment) <= bound
      ensures Multiple(k, increment) <= Multiple(m, increment)
    {
      MultipleOrder(k, m + 1, increment);
      MultipleOrder(m, k, increment);
    }
  }

  /** Rounding yields the largest multiple within the tolerance above the value ... */
  lemma RoundsDownWithinTolerance(value: real, increment: real)
    requires value >= 0.0 && increment > 0.0
    requires Tolerance(increment) <= increment * 0.5
    ensures LargestMultipleUpTo(RoundToIncrement(value, increment), value + Tolerance(increment), increment)
  {
    var n, t := Bracket(value, increment);
    var tol := Tolerance(increment);
    NextMultiple(t, increment);
    if Abs(value - Multiple(n, increment)) <= tol {
      IsLargest(n, value + tol, increment);
    } else {
      IsLargest(t, value + tol, increment);
    }
  }

  /** ... for every non-negative value exactly when the tolerance is at most half the increment. */
  lemma RoundingContract(increment: real)
    requires increment > 0.0
    ensures (forall value: real :: value >= 0.0 ==>
               LargestMultipleUpTo(RoundToIncrement(value, increment), value + Tolerance(increment), increment))
            <==> Tolerance(increment) <= increment * 0.5
  {
    var tol := Tolerance(increment);
    if tol <= increment * 0.5 {
      forall value: real | value >= 0.0
        ensures LargestMultipleUpTo(RoundToIncrement(value, increment), value + tol, increment)
      {
        RoundsDownWithinTolerance(value, increment);
      }
    } else {
      ToleranceTooWide(increment);
    }
  }

  /** With a tolerance above half the increment, a value just within it of the first multiple still
      rounds to zero. */
  lemma ToleranceTooWide(increment: real)
    requires increment > 0.0
    requires Tolerance(increment) > increment * 0.5
    ensures var value := Max(increment - Tolerance(increment), 0.0);
            && value >= 0.0
            && !LargestMultipleUpTo(RoundToIncrement(value, increment), value + Tolerance(increment), increment)
  {
    var value := Max(increment - Tolerance(increment), 0.0);
    var n, t := Bracket(value, increment);
    NextMultiple(0, increment);
    MultipleOrder(0, t, increment);
    NextMultiple(t - 1, increment);
    MultipleOrder(t - 1, 0, increment);
    assert t == 0 && n == 0;
    assert Multiple(1, increment) <= value + Tolerance(increment);
  }

  /** Rounding is symmetric around zero. */
  lemma RoundingNegates(value: real, increment: real)
    requires increment > 0.0
    ensures RoundToIncrement(-value, increment) == -RoundToIncrement(value, increment)
  {
    var x := value / increment;
    hide Multiple, Tolerance;
    QuotientNegates(value, increment);
    assert RoundHalfUp(-x) == -RoundHalfUp(x) && Truncate(-x) == -Truncate(x);
    MultipleNegates(RoundHalfUp(x), increment);
    MultipleNegates(Truncate(x), increment);
    hide RoundHalfUp, Truncate;
  }

  lemma QuotientNegates(value: real, increment: real)
    requires increment > 0.0
    ensures -value / increment == -(value / increment)
  {
    Quotient(value, increment);
    Quotient(-value, increment);
    Scale(-value / increment, -(value / increment), increment);
    Scale(-(value / increment), -value / increment, increment);
  }

  lemma MultipleNegates(k: int, increment: real)
    ensures Multiple(-k, increment) == -Multiple(k, increment)
  {
  }

  lemma RoundingIsMonotoneAboveZero(a: real, b: real, increment: real)
    requires 0.0 <= a <= b && increment > 0.0
    ensures 0.0 <= RoundToIncrement(a, increment) <= RoundToIncrement(b, increment)
  {
    var n, t := Bracket(a, increment);
    var m, u := Bracket(b, increment);
    NextMultiple(u, increment);
    NextMultiple(t, increment);
    MultipleOrder(t, u + 1, increment);
    MultipleOrder(m, n, increment);
    MultipleOrder(u, n, increment);
    MultipleOrder(u, t, increment);
    MultipleOrder(m, t, increment);
    MultipleOrder(t, 0, increment);
    assert Multiple(0, increment) == 0.0;
    hide Multiple, RoundHalfUp, Truncate, Tolerance;
    assert t <= u && n <= m;
  }

  /** A larger value never rounds to a smaller one, whatever the signs and the increment. */
  lemma RoundingIsMonotone(a: real, b: real, increment: real)
    ensures a <= b ==> RoundToIncrement(a, increment) <= RoundToIncrement(b, increment)
  {
    if increment > 0.0 && a <= b {
      hide RoundToIncrement;
      RoundingNegates(a, increment);
      RoundingNegates(b, increment);
      if 0.0 <= a {
        RoundingIsMonotoneAboveZero(a, b, increment);
      } else if b <= 0.0 {
        RoundingIsMonotoneAboveZero(-b, -a, increment);
      } else {
        RoundingIsMonotoneAboveZero(-a, -a, increment);
        RoundingIsMonotoneAboveZero(b, b, increment);
      }
    }
  }

  /** A multiple of the increment, of either sign, is left as it is. */
  lemma MultiplesAreFixed(k: int, increment: real)
    requires increment > 0.0
    ensures RoundToIncrement(Multiple(k, increment), increment) == Multiple(k, increment)
  {
    var x := Multiple(k, increment) / increment;
    Quotient(Multiple(k, increment), increment);
    Scale(x, k as real, increment);
    Scale(k as real, x, increment);
    assert RoundHalfUp(x) == k;
  }

  /** Rounding twice is rounding once, for every value and increment. */
  lemma RoundingIsIdempotent(value: real, increment: real)
    ensures RoundToIncrement(RoundToIncrement(value, increment), increment) == RoundToIncrement(value, increment)
  {
    if increment > 0.0 {
      RoundedIsMultiple(value, increment);
      var k: int :| RoundToIncrement(value, increment) == Multiple(k, increment);
      MultiplesAreFixed(k, increment);
    }
  }

  lemma RoundedIsMultiple(value: real, increment: real)
    requires increment > 0.0
    ensures IsMultiple(RoundToIncrement(value, increment), increment)
  {
    assert RoundToIncrement(value, increment) == Multiple(RoundHalfUp(value / increment), increment)
        || RoundToIncrement(value, increment) == Multiple(Truncate(value / increment), increment);
  }
}
