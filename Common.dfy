/** Small value helpers shared by the whole model: an option type, integer and
    real clamps, C-style truncation and rounding, and sums over sequences. */
module Common {

  datatype Option<T> = None | Some(value: T)

  function MinInt(a: int, b: int): (r: int)
    ensures r <= a && r <= b && (r == a || r == b)
  {
    if a <= b then a else b
  }

  function MaxInt(a: int, b: int): (r: int)
    ensures r >= a && r >= b && (r == a || r == b)
  {
    if a >= b then a else b
  }

  /** Python's max(lo, min(x, hi)) on integers. */
  function ClampInt(x: int, lo: int, hi: int): (r: int)
    requires lo <= hi
    ensures lo <= r <= hi
    ensures lo <= x <= hi ==> r == x
    ensures x < lo ==> r == lo
    ensures x > hi ==> r == hi
  {
    MaxInt(lo, MinInt(x, hi))
  }

  /** max(lo, min(x, hi)) on reals (the same clamp for doubles and floats). */
  function ClampReal(x: real, lo: real, hi: real): (r: real)
    requires lo <= hi
    ensures lo <= r <= hi
    ensures lo <= x <= hi ==> r == x
    ensures x < lo ==> r == lo
    ensures x > hi ==> r == hi
  {
    if x < lo then lo else if x > hi then hi else x
  }

  /** C's (int) cast and Python's int() on a real: truncation toward zero. */
  function Trunc(x: real): (r: int)
    ensures x >= 0.0 ==> 0 <= r && r as real <= x < r as real + 1.0
    ensures x < 0.0 ==> r <= 0 && r as real - 1.0 < x <= r as real
  {
    if x >= 0.0 then x.Floor else -((-x).Floor)
  }

  /** C's round(): nearest integer, halves rounded away from zero. */
  function RoundHalfAway(x: real): (r: int)
    ensures x >= 0.0 ==> r as real - 0.5 <= x < r as real + 0.5
    ensures x < 0.0 ==> r as real - 0.5 < x <= r as real + 0.5
  {
    if x >= 0.0 then (x + 0.5).Floor else -((-x + 0.5).Floor)
  }

  /** Sum of an integer sequence, peeled from the end so that a loop adding
      s[i] to a running total keeps `total == Sum(s[..i])`. */
  function Sum(s: seq<int>): int
  {
    if s == [] then 0 else Sum(s[..|s| - 1]) + s[|s| - 1]
  }

  function SumReal(s: seq<real>): real
  {
    if s == [] then 0.0 else SumReal(s[..|s| - 1]) + s[|s| - 1]
  }

  lemma SumStep(s: seq<int>, i: nat)
    requires i < |s|
    ensures Sum(s[..i + 1]) == Sum(s[..i]) + s[i]
  {
    assert s[..i + 1][..i] == s[..i];
  }

  lemma SumRealStep(s: seq<real>, i: nat)
    requires i < |s|
    ensures SumReal(s[..i + 1]) == SumReal(s[..i]) + s[i]
  {
    assert s[..i + 1][..i] == s[..i];
  }

  /** A sum of values that all lie in [lo, hi] lies in [|s|*lo, |s|*hi]. */
  lemma {:induction false} SumBounds(s: seq<int>, lo: int, hi: int)
    requires forall k :: 0 <= k < |s| ==> lo <= s[k] <= hi
    ensures |s| * lo <= Sum(s) <= |s| * hi
  {
    if s != [] {
      var p := s[..|s| - 1];
      assert forall k :: 0 <= k < |p| ==> p[k] == s[k];
      SumBounds(p, lo, hi);
      assert |s| * lo == |p| * lo + lo;
      assert |s| * hi == |p| * hi + hi;
    }
  }

  /** A constant sequence sums to its length times the constant. */
  lemma {:induction false} SumConstant(s: seq<int>, v: int)
    requires forall k :: 0 <= k < |s| ==> s[k] == v
    ensures Sum(s) == |s| * v
  {
    if s != [] {
      var p := s[..|s| - 1];
      assert forall k :: 0 <= k < |p| ==> p[k] == s[k];
      SumConstant(p, v);
      assert |s| * v == |p| * v + v;
    }
  }

  lemma {:induction false} SumRealConstant(s: seq<real>, v: real)
    requires forall k :: 0 <= k < |s| ==> s[k] == v
    ensures SumReal(s) == |s| as real * v
  {
    if s != [] {
      var p := s[..|s| - 1];
      assert forall k :: 0 <= k < |p| ==> p[k] == s[k];
      SumRealConstant(p, v);
    }
  }

  /** Floor division of a sum that lies in [n*lo, n*hi] by n stays in [lo, hi]. */
  lemma DivBounds(total: int, n: int, lo: int, hi: int)
    requires n > 0 && n * lo <= total <= n * hi
    ensures lo <= total / n <= hi
  {
    var q, r := total / n, total % n;
    assert total == n * q + r && 0 <= r < n;
    MulMono(n, q + 1, lo);
    MulMono(n, hi + 1, q);
  }

  lemma MulMono(n: int, a: int, b: int)
    requires n > 0
    ensures a <= b ==> n * a <= n * b
  {
    if a <= b {
      assert n * b - n * a == n * (b - a);
    }
  }

  /** Exact real mean of a sum that lies in [n*lo, n*hi] stays in [lo, hi]. */
  lemma RealDivBounds(total: real, n: real, lo: real, hi: real)
    requires n > 0.0 && n * lo <= total <= n * hi
    ensures lo <= total / n <= hi
  {
    assert total / n * n == total;
  }

  /** Length of the run of `b` at the end of `s` (the current streak of a
      debounce counter fed with the observations in `s`). */
  function Trailing(s: seq<bool>, b: bool): (n: nat)
    ensures n <= |s|
    ensures n < |s| ==> s[|s| - 1 - n] != b
    ensures forall k :: |s| - n <= k < |s| ==> s[k] == b
  {
    if s == [] || s[|s| - 1] != b then 0 else Trailing(s[..|s| - 1], b) + 1
  }

  lemma TrailingAppend(s: seq<bool>, x: bool, b: bool)
    ensures Trailing(s + [x], b) == if x == b then Trailing(s, b) + 1 else 0
  {
    assert (s + [x])[..|s|] == s;
  }

  /** Counting one more frame adds one examined frame, for loops that
      examine every fifth frame, exactly when the new count is a multiple
      of 5. */
  lemma FifthFrameStep(f: nat)
    ensures (f + 1) / 5 == f / 5 + (if (f + 1) % 5 == 0 then 1 else 0)
  {
  }

  /** The largest element of a non-empty sequence (a contour list sorted by
      area, largest first, has it at the front). */
  function MaxOf(s: seq<real>): (m: real)
    requires s != []
    ensures exists k :: 0 <= k < |s| && s[k] == m
    ensures forall k :: 0 <= k < |s| ==> s[k] <= m
  {
    if |s| == 1 then s[0]
    else
      var r := MaxOf(s[..|s| - 1]);
      if s[|s| - 1] > r then s[|s| - 1] else r
  }
}
