/** Numeric vocabulary shared by every part of the simulator model.
    Every float of the simulator is a Dafny `real`; every random draw the
    simulator makes is passed in as a unit draw `u` with 0 <= u < 1. */
module Common {

  datatype Option<T> = None | Some(value: T)

  /** A tier threshold: a number, or `np.inf` as the open-ended last tier. */
  datatype Threshold = Finite(value: real) | Infinite

  /** `x < t` for an extended-real threshold. */
  predicate Below(x: real, t: Threshold) {
    match t
    case Finite(v) => x < v
    case Infinite => true
  }

  /** `x <= t` for an extended-real threshold. */
  predicate AtMost(x: real, t: Threshold) {
    match t
    case Finite(v) => x <= v
    case Infinite => true
  }

  /** The order of extended-real thresholds (infinity above every number). */
  predicate ThresholdLe(a: Threshold, b: Threshold) {
    match (a, b)
    case (_, Infinite) => true
    case (Infinite, Finite(_)) => false
    case (Finite(u), Finite(w)) => u <= w
  }

  /** `dict.get(key, default)` on a metric dictionary. */
  function Get(m: map<string, real>, key: string, default: real): real {
    if key in m then m[key] else default
  }

  /** A draw of `np.random.rand()`. */
  predicate IsUnit(u: real) {
    0.0 <= u < 1.0
  }

  /** `np.random.uniform(lo, hi)` obtained from the unit draw `u`. */
  function Uniform(lo: real, hi: real, u: real): (r: real)
    requires lo <= hi && IsUnit(u)
    ensures lo <= r && (lo < hi ==> r < hi)
  {
    var width := hi - lo;
    MulBounds(width, u);
    lo + width * u
  }

  /** Left-to-right sum, as Python's `sum` and `+=` loops compute it. */
  function Sum(s: seq<real>): real {
    if s == [] then 0.0 else Sum(s[..|s| - 1]) + s[|s| - 1]
  }

  /** `x ** n` for a natural exponent. */
  function Pow(x: real, n: nat): real {
    if n == 0 then 1.0 else x * Pow(x, n - 1)
  }

  /** The laws assumed of the exponential function that is passed in for `np.exp`. */
  ghost predicate ExpLaws(exp: real -> real) {
    exp(0.0) == 1.0 && forall x, y :: x <= y ==> exp(x) <= exp(y)
  }

  lemma MulBounds(a: real, u: real)
    requires 0.0 <= a && IsUnit(u)
    ensures 0.0 <= a * u <= a
    ensures 0.0 < a ==> a * u < a
  {
    assert a * u <= a * 1.0 by { MulLeft(a, u, 1.0); }
    if 0.0 < a { assert a * u < a * 1.0; }
  }

  lemma MulLeft(c: real, x: real, y: real)
    requires 0.0 <= c && x <= y
    ensures c * x <= c * y
  {
    assert c * y - c * x == c * (y - x);
  }

  /** `MulLeft` with the two products named, for callers whose products
      are function results. */
  lemma ScaledOrder(c: real, x: real, y: real, cx: real, cy: real)
    requires 0.0 <= c && x <= y && cx == c * x && cy == c * y
    ensures cx <= cy
  {
    MulLeft(c, x, y);
  }

  lemma DivMonotone(x: real, y: real, d: real)
    requires x <= y && 0.0 < d
    ensures x / d <= y / d
  {
    assert y / d - x / d == (y - x) / d;
  }

  lemma {:induction false} SumAppend(s: seq<real>, t: seq<real>)
    ensures Sum(s + t) == Sum(s) + Sum(t)
  {
    if t == [] {
      assert s + t == s;
    } else {
      assert (s + t)[..|s + t| - 1] == s + t[..|t| - 1];
      SumAppend(s, t[..|t| - 1]);
    }
  }

  lemma {:induction false} SumNonNegative(s: seq<real>)
    requires forall i :: 0 <= i < |s| ==> 0.0 <= s[i]
    ensures 0.0 <= Sum(s)
  {
    if s != [] {
      SumNonNegative(s[..|s| - 1]);
    }
  }

  /** Scaling every element scales the sum. */
  lemma {:induction false} SumScale(s: seq<real>, c: real, t: seq<real>)
    requires |t| == |s| && forall i :: 0 <= i < |s| ==> t[i] == s[i] * c
    ensures Sum(t) == Sum(s) * c
  {
    if s != [] {
      SumScale(s[..|s| - 1], c, t[..|t| - 1]);
    }
  }

  lemma {:induction false} PowNonNegative(x: real, n: nat)
    requires 0.0 <= x
    ensures 0.0 <= Pow(x, n)
  {
    if n > 0 {
      PowNonNegative(x, n - 1);
    }
  }

  /** `x ** n` is monotone on the non-negative reals. */
  lemma {:induction false} PowMonotone(x: real, y: real, n: nat)
    requires 0.0 <= x <= y
    ensures Pow(x, n) <= Pow(y, n)
  {
    if n > 0 {
      PowMonotone(x, y, n - 1);
      PowNonNegative(x, n - 1);
      MulLeft(Pow(x, n - 1), x, y);
      MulLeft(y, Pow(x, n - 1), Pow(y, n - 1));
    }
  }

  lemma {:induction false} PowOne(n: nat)
    ensures Pow(1.0, n) == 1.0
  {
    if n > 0 {
      PowOne(n - 1);
    }
  }

  lemma PowZero(n: nat)
    requires 0 < n
    ensures Pow(0.0, n) == 0.0
  {
  }

  lemma {:induction false} PowPositive(x: real, n: nat)
    requires 0.0 < x
    ensures 0.0 < Pow(x, n)
  {
    if n > 0 {
      PowPositive(x, n - 1);
    }
  }
}
