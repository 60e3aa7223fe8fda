/** Arithmetic helpers shared by the forecasting formulas: sums, maxima, means and the
    rounding functions `Math.ceil` and `Math.round` stated over exact reals. */
module Numbers {

  /** Sum of a sequence, accumulated left to right as `reduce((a, b) => a + b, 0)` does. */
  function Sum(s: seq<int>): int
  {
    if s == [] then 0 else Sum(s[..|s| - 1]) + s[|s| - 1]
  }

  /** `Math.max(...s)` on a non-empty sequence. */
  function MaxOf(s: seq<int>): (m: int)
    requires |s| > 0
    ensures m in s
    ensures forall x :: x in s ==> x <= m
  {
    if |s| == 1 then s[0]
    else
      var m := MaxOf(s[1..]);
      assert forall x :: x in s ==> x == s[0] || x in s[1..];
      if s[0] >= m then s[0] else m
  }

  /** Arithmetic mean of a non-empty sequence. */
  function Mean(s: seq<int>): real
    requires |s| > 0
  {
    Sum(s) as real / |s| as real
  }

  /** `Math.ceil`: the least integer not below `x`. */
  function Ceil(x: real): (r: int)
    ensures x <= r as real < x + 1.0
  {
    -((-x).Floor)
  }

  /** `Math.round`: the nearest integer, halves rounded up. */
  function Round(x: real): (r: int)
    ensures x - 0.5 < r as real <= x + 0.5
  {
    (x + 0.5).Floor
  }

  function Abs(x: real): (r: real)
    ensures r >= 0.0 && (r == x || r == -x)
  {
    if x < 0.0 then -x else x
  }

  lemma {:induction false} SumAtMost(s: seq<int>, bound: int)
    requires forall x :: x in s ==> x <= bound
    ensures Sum(s) <= |s| * bound
  {
    if s != [] {
      var init := s[..|s| - 1];
      assert forall x :: x in init ==> x in s;
      assert s[|s| - 1] in s;
      SumAtMost(init, bound);
    }
  }

  lemma {:induction false} SumNonNegative(s: seq<int>)
    requires forall x :: x in s ==> x >= 0
    ensures Sum(s) >= 0
  {
    if s != [] {
      var init := s[..|s| - 1];
      assert forall x :: x in init ==> x in s;
      assert s[|s| - 1] in s;
      SumNonNegative(init);
    }
  }

  /** The mean never exceeds the maximum, so `Dmax - Davg` is never negative. */
  lemma MeanAtMostMax(s: seq<int>)
    requires |s| > 0
    ensures Mean(s) <= MaxOf(s) as real
  {
    SumAtMost(s, MaxOf(s));
    QuotientBound(Sum(s), |s|, MaxOf(s));
  }

  lemma QuotientBound(total: int, n: int, m: int)
    requires n > 0 && total <= n * m
    ensures total as real / n as real <= m as real
  {
    assert (n * m) as real == n as real * m as real;
  }

  /** A sequence of non-negative values has a non-negative mean. */
  lemma MeanNonNegative(s: seq<int>)
    requires |s| > 0
    requires forall x :: x in s ==> x >= 0
    ensures Mean(s) >= 0.0
  {
    SumNonNegative(s);
  }

  /** Adding an integer commutes with taking the ceiling. */
  lemma CeilShift(x: real, n: int)
    ensures Ceil(x + n as real) == Ceil(x) + n
  {
  }
}
