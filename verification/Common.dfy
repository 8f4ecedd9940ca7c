/** Enumerations, optional values and real-number helpers shared by every module
    (app/core/enums.py). */
module Common {

  datatype Option<+T> = None | Some(value: T)

  datatype Result<+T, +E> = Success(value: T) | Failure(error: E)

  datatype InstrumentType = Spot | Perpetual

  datatype PositionSide = Long | Short

  datatype OrderSide = Buy | Sell

  datatype OrderType = Market | Limit

  datatype OrderStatus = New | PartiallyFilled | Filled | Canceled | Rejected

  function Max(a: real, b: real): real {
    if a >= b then a else b
  }

  function Min(a: real, b: real): real {
    if a <= b then a else b
  }

  function Abs(a: real): real {
    if a < 0.0 then -a else a
  }

  function Direction(side: PositionSide): real {
    if side == Short then -1.0 else 1.0
  }

  function EntrySide(side: PositionSide): OrderSide {
    if side == Short then Sell else Buy
  }

  function ExitSide(side: PositionSide): OrderSide {
    if side == Short then Buy else Sell
  }

  lemma NonNegativeProduct(a: real, b: real)
    requires a >= 0.0 && b >= 0.0
    ensures a * b >= 0.0
  {
  }

  /** Python's `value or fallback` on an optional number: None and zero both fall back. */
  function OrElse(value: Option<real>, fallback: real): real {
    if value.Some? && value.value != 0.0 then value.value else fallback
  }

  /** The sum of `f` over a sequence, in order of insertion. */
  function SumBy<T>(s: seq<T>, f: T -> real): real {
    if s == [] then 0.0 else SumBy(s[..|s| - 1], f) + f(s[|s| - 1])
  }

  lemma SumByAppend<T>(s: seq<T>, x: T, f: T -> real)
    ensures SumBy(s + [x], f) == SumBy(s, f) + f(x)
  {
    assert (s + [x])[..|s|] == s;
  }

  /** Two sequences that agree under two measures have equal sums. */
  lemma {:induction false} SumByCongruence<T, U>(s: seq<T>, f: T -> real, u: seq<U>, g: U -> real)
    requires |s| == |u|
    requires forall i :: 0 <= i < |s| ==> f(s[i]) == g(u[i])
    ensures SumBy(s, f) == SumBy(u, g)
  {
    if s != [] {
      SumByCongruence(s[..|s| - 1], f, u[..|u| - 1], g);
    }
  }

  /** Replacing one element moves the sum by the difference of the two elements. */
  lemma {:induction false} SumByUpdate<T>(s: seq<T>, k: nat, x: T, f: T -> real)
    requires k < |s|
    ensures SumBy(s[k := x], f) == SumBy(s, f) - f(s[k]) + f(x)
  {
    var n := |s| - 1;
    if k == n {
      assert s[k := x][..n] == s[..n];
    } else {
      assert s[k := x][..n] == s[..n][k := x];
      SumByUpdate(s[..n], k, x, f);
    }
  }

  /** The sum of `f` over the indices below `n`. */
  function SumTo(n: nat, f: nat -> real): real {
    if n == 0 then 0.0 else SumTo(n - 1, f) + f(n - 1)
  }

  lemma {:induction false} SumToCongruence(n: nat, f: nat -> real, g: nat -> real)
    requires forall i: nat :: i < n ==> f(i) == g(i)
    ensures SumTo(n, f) == SumTo(n, g)
  {
    if n > 0 {
      SumToCongruence(n - 1, f, g);
    }
  }

  /** Two measures that agree everywhere but at `k` have sums that differ as they do at `k`. */
  lemma {:induction false} SumToChangeOne(n: nat, f: nat -> real, g: nat -> real, k: nat)
    requires k < n
    requires forall i: nat :: i < n && i != k ==> f(i) == g(i)
    ensures SumTo(n, g) == SumTo(n, f) - f(k) + g(k)
  {
    if k == n - 1 {
      SumToCongruence(n - 1, f, g);
    } else {
      SumToChangeOne(n - 1, f, g, k);
    }
  }
}
