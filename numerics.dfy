/**
 * The NumPy and built-in numeric helpers the pipeline relies on, over `real`
 * (floating-point rounding is not modelled).
 */
module Numerics {

  /** `numpy.clip(x, lo, hi)`, which is `minimum(maximum(x, lo), hi)`. */
  function Clip(x: real, lo: real, hi: real): (r: real)
    ensures lo <= hi ==> lo <= r <= hi
    ensures lo <= x <= hi ==> r == x
    ensures x < lo && lo <= hi ==> r == lo
    ensures hi < x ==> r == hi
  {
    var m := if x < lo then lo else x;
    if m > hi then hi else m
  }

  /** Python's `max(0, x)` style lower bound. */
  function AtLeast(floor: real, x: real): (r: real)
    ensures r >= floor && r >= x
    ensures r == floor || r == x
  {
    if x < floor then floor else x
  }

  function Abs(x: real): (r: real)
    ensures r >= 0.0
    ensures r == x || r == -x
  {
    if x < 0.0 then -x else x
  }

  /** Python's `max(iterable)` on a non-empty sequence: its largest element. */
  function Max(s: seq<real>): (m: real)
    requires |s| > 0
    ensures m in s
    ensures forall i :: 0 <= i < |s| ==> s[i] <= m
  {
    if |s| == 1 then s[0]
    else
      var rest := Max(s[1..]);
      if s[0] >= rest then s[0] else rest
  }

  function Sum(s: seq<real>): real
  {
    if |s| == 0 then 0.0 else Sum(s[..|s| - 1]) + s[|s| - 1]
  }

  /** A sum of values that each lie in [lo, hi] lies in [|s|*lo, |s|*hi]. */
  lemma {:induction false} SumBounds(s: seq<real>, lo: real, hi: real)
    requires forall i :: 0 <= i < |s| ==> lo <= s[i] <= hi
    ensures |s| as real * lo <= Sum(s) <= |s| as real * hi
  {
    if |s| > 0 {
      SumBounds(s[..|s| - 1], lo, hi);
    }
  }

  /** `numpy.random.randint(lo, hi)` driven by an oracle value `k`: every value of [lo, hi) is reachable. */
  function RandInt(lo: int, hi: int, k: nat): (r: int)
    requires lo < hi
    ensures lo <= r < hi
  {
    lo + k % (hi - lo)
  }

  lemma RandIntReachesAll(lo: int, hi: int, v: int)
    requires lo <= v < hi
    ensures RandInt(lo, hi, v - lo) == v
  {
  }

  lemma MulNonNegative(a: real, b: real)
    requires a >= 0.0 && b >= 0.0
    ensures a * b >= 0.0
  {
  }

  /** A part of a positive whole is a fraction in [0, 1]. */
  lemma FractionBounds(part: real, whole: real)
    requires whole > 0.0 && 0.0 <= part <= whole
    ensures 0.0 <= part / whole <= 1.0
  {
    var q := part / whole;
    assert q * whole == part;
  }

  /** Two disjoint parts of a positive whole, as fractions, add up to at most 1. */
  lemma FractionsAddUp(a: real, b: real, whole: real)
    requires whole > 0.0 && 0.0 <= a && 0.0 <= b && a + b <= whole
    ensures a / whole + b / whole <= 1.0
  {
    assert a / whole + b / whole == (a + b) / whole;
    FractionBounds(a + b, whole);
  }

  /** The mean of a total that lies in [n*lo, n*hi] lies in [lo, hi]. */
  lemma MeanBounds(total: real, n: real, lo: real, hi: real)
    requires n > 0.0 && n * lo <= total <= n * hi
    ensures lo <= total / n <= hi
  {
    assert (n * lo) / n == lo;
    assert (n * hi) / n == hi;
    assert (n * lo) / n <= total / n <= (n * hi) / n;
  }

  /** `part / whole * 100` for a count out of a total, 0 for an empty total. */
  function Percent(part: nat, whole: nat): (r: real)
    requires part <= whole
    ensures 0.0 <= r <= 100.0
    ensures whole == 0 ==> r == 0.0
    ensures part == whole && whole > 0 ==> r == 100.0
  {
    if whole == 0 then 0.0
    else
      FractionBounds(part as real, whole as real);
      (part as real / whole as real) * 100.0
  }

  /** Percentages of two disjoint parts of one total add up to at most 100. */
  lemma PercentsAddUp(a: nat, b: nat, whole: nat)
    requires a + b <= whole
    ensures Percent(a, whole) + Percent(b, whole) <= 100.0
  {
    if whole > 0 {
      FractionsAddUp(a as real, b as real, whole as real);
    }
  }

  /** `numpy.mean` of a non-empty sequence. */
  function Mean(s: seq<real>): real
    requires |s| > 0
  {
    Sum(s) / |s| as real
  }

  /** The mean of values that each lie in [lo, hi] lies in [lo, hi]. */
  lemma MeanWithin(s: seq<real>, lo: real, hi: real)
    requires |s| > 0 && forall i :: 0 <= i < |s| ==> lo <= s[i] <= hi
    ensures lo <= Mean(s) <= hi
  {
    SumBounds(s, lo, hi);
    MeanBounds(Sum(s), |s| as real, lo, hi);
  }

  /** A value in [lo*m, hi*m) over a positive `m` lies in [lo, hi). */
  lemma RatioWithin(a: real, m: real, lo: real, hi: real)
    requires m > 0.0 && lo * m <= a < hi * m
    ensures lo <= a / m < hi
  {
    assert (lo * m) / m == lo;
    assert (hi * m) / m == hi;
    assert (lo * m) / m <= a / m < (hi * m) / m;
  }

  /** `numpy.random.uniform(lo, hi)` at position `u` of the range. */
  function Uniform(lo: real, hi: real, u: real): real
  {
    lo + u * (hi - lo)
  }
}
