/**
 * Sample sequences over exact reals, and the numpy whole-array operations the
 * transforms share: element-wise sums, the peak `np.max(np.abs(w))` and the
 * division of a waveform by its peak.
 */
module Signals {

  /** A sample that no stage expects outside [-1, 1] once normalised, and the range of sin and cos. */
  type Bounded = r: real | -1.0 <= r <= 1.0

  function Abs(x: real): real {
    if x < 0.0 then -x else x
  }

  /** Python's `int(x)` on a float: truncation toward zero. */
  function Trunc(x: real): (n: int)
    ensures x >= 0.0 ==> 0 <= n && n as real <= x < n as real + 1.0
    ensures x < 0.0 ==> n <= 0 && n as real - 1.0 < x <= n as real
  {
    if x >= 0.0 then x.Floor else -((-x).Floor)
  }

  /** Python's float `x % m` for a positive modulus: the result takes the sign of the modulus. */
  function FloorMod(x: real, m: real): (r: real)
    requires m > 0.0
    ensures 0.0 <= r < m
    ensures ((x - r) / m).Floor as real == (x - r) / m
  {
    var k := (x / m).Floor;
    FloorScaled(x, m);
    var r := x - k as real * m;
    assert x - r == k as real * m;
    IntegralMultiple(k, m);
    r
  }

  lemma MulNonneg(a: real, b: real)
    requires a >= 0.0 && b >= 0.0
    ensures a * b >= 0.0
  {
  }

  lemma MulPos(a: real, b: real)
    requires a > 0.0 && b > 0.0
    ensures a * b > 0.0
  {
  }

  lemma SelfQuotient(m: real)
    requires m != 0.0
    ensures m / m == 1.0
  {
  }

  lemma IntegralMultiple(k: int, m: real)
    requires m != 0.0
    ensures ((k as real * m) / m).Floor as real == (k as real * m) / m
  {
    ProductQuotient(k as real, m);
  }

  lemma ProductQuotient(a: real, m: real)
    requires m != 0.0
    ensures (a * m) / m == a
  {
  }

  /** With k the floor of x / m and m > 0: k * m <= x < k * m + m. */
  lemma FloorScaled(x: real, m: real)
    requires m > 0.0
    ensures (x / m).Floor as real * m <= x < (x / m).Floor as real * m + m
  {
    var k := (x / m).Floor as real;
    BelowNext(x, m, x / m, k);
    AboveFloor(x, m, x / m, k);
  }

  lemma BelowNext(x: real, m: real, q: real, k: real)
    requires m > 0.0 && q * m == x && q < k + 1.0
    ensures x < k * m + m
  {
    var j := k + 1.0;
    assert (j - q) * m > 0.0;
    assert (j - q) * m == j * m - q * m;
    assert j * m == k * m + m;
  }

  lemma AboveFloor(x: real, m: real, q: real, k: real)
    requires m > 0.0 && q * m == x && k <= q
    ensures k * m <= x
  {
    assert (q - k) * m >= 0.0;
  }

  function Zeros(n: nat): (z: seq<real>)
    ensures |z| == n && forall i :: 0 <= i < n ==> z[i] == 0.0
  {
    seq(n, _ => 0.0)
  }

  /** numpy `a + b` on two arrays of one shape. */
  function Add(a: seq<real>, b: seq<real>): (s: seq<real>)
    requires |a| == |b|
    ensures |s| == |a| && forall i :: 0 <= i < |a| ==> s[i] == a[i] + b[i]
  {
    seq(|a|, i requires 0 <= i < |a| => a[i] + b[i])
  }

  /** numpy `a - b` on two arrays of one shape. */
  function Sub(a: seq<real>, b: seq<real>): (s: seq<real>)
    requires |a| == |b|
    ensures |s| == |a| && forall i :: 0 <= i < |a| ==> s[i] == a[i] - b[i]
  {
    seq(|a|, i requires 0 <= i < |a| => a[i] - b[i])
  }

  /** numpy `c * a` for a scalar c. */
  function Times(c: real, a: seq<real>): (s: seq<real>)
    ensures |s| == |a| && forall i :: 0 <= i < |a| ==> s[i] == c * a[i]
  {
    seq(|a|, i requires 0 <= i < |a| => c * a[i])
  }

  /** numpy `a / d` for a nonzero scalar d. */
  function Divide(a: seq<real>, d: real): (s: seq<real>)
    requires d != 0.0
    ensures |s| == |a| && forall i :: 0 <= i < |a| ==> s[i] == a[i] / d
  {
    seq(|a|, i requires 0 <= i < |a| => a[i] / d)
  }

  /** An index of a sample of largest magnitude (the first one, as `np.argmax(np.abs(w))` picks). */
  function PeakIndex(w: seq<real>): (k: nat)
    requires |w| > 0
    ensures k < |w|
    ensures forall i :: 0 <= i < |w| ==> Abs(w[i]) <= Abs(w[k])
    ensures forall i :: 0 <= i < k ==> Abs(w[i]) < Abs(w[k])
  {
    if |w| == 1 then 0
    else
      var k := PeakIndex(w[..|w| - 1]);
      assert forall i :: 0 <= i < |w| - 1 ==> w[..|w| - 1][i] == w[i];
      if Abs(w[|w| - 1]) > Abs(w[k]) then |w| - 1 else k
  }

  /** `np.max(np.abs(w))`, defined only where numpy does not raise: on a nonempty array. */
  function MaxAbs(w: seq<real>): (m: real)
    requires |w| > 0
    ensures m >= 0.0
    ensures forall i :: 0 <= i < |w| ==> Abs(w[i]) <= m
  {
    Abs(w[PeakIndex(w)])
  }

  /** A waveform divided by its peak, as the stages that renormalise do. */
  function Normalized(w: seq<real>): (n: seq<real>)
    requires |w| > 0 && MaxAbs(w) > 0.0
    ensures |n| == |w|
  {
    Divide(w, MaxAbs(w))
  }

  /** Every sample of a waveform whose peak is p lies in [-p, p]. */
  predicate PeakAtMost(w: seq<real>, p: real) {
    forall i :: 0 <= i < |w| ==> -p <= w[i] <= p
  }

  /** Dividing by the peak puts every sample in [-1, 1] and makes the new peak exactly 1. */
  lemma NormalizedPeak(w: seq<real>)
    requires |w| > 0 && MaxAbs(w) > 0.0
    ensures |Normalized(w)| == |w|
    ensures PeakAtMost(Normalized(w), 1.0)
    ensures MaxAbs(Normalized(w)) == 1.0
  {
    var m := MaxAbs(w);
    var n := Normalized(w);
    forall i | 0 <= i < |n|
      ensures -1.0 <= n[i] <= 1.0
    {
      NormalizedSample(w, m, n, i);
    }
    var j := PeakIndex(w);
    NormalizedSample(w, m, n, j);
    SelfQuotient(m);
    PeakOne(n, j);
  }

  lemma NormalizedSample(w: seq<real>, m: real, n: seq<real>, i: nat)
    requires i < |w| == |n| && m > 0.0 && Abs(w[i]) <= m && n[i] == w[i] / m
    ensures -1.0 <= n[i] <= 1.0 && Abs(n[i]) == Abs(w[i]) / m
  {
    QuotientBound(w[i], m);
  }

  /** A waveform with every sample in [-1, 1] and one sample of magnitude 1 has peak 1. */
  lemma PeakOne(w: seq<real>, j: nat)
    requires j < |w| && PeakAtMost(w, 1.0) && Abs(w[j]) == 1.0
    ensures MaxAbs(w) == 1.0
  {
    assert Abs(w[PeakIndex(w)]) <= 1.0;
  }

  lemma QuotientBound(x: real, m: real)
    requires m > 0.0 && Abs(x) <= m
    ensures -1.0 <= x / m <= 1.0 && Abs(x / m) == Abs(x) / m
  {
    QuotientAtMostOne(x, m);
    QuotientAtMostOne(-x, m);
    NegatedQuotient(x, m);
    QuotientSign(x, m);
  }

  lemma QuotientAtMostOne(x: real, m: real)
    requires m > 0.0 && x <= m
    ensures x / m <= 1.0
  {
    var q := x / m;
    assert q * m == x;
  }

  lemma NegatedQuotient(x: real, m: real)
    requires m > 0.0
    ensures (-x) / m == -(x / m)
  {
  }

  lemma QuotientSign(x: real, m: real)
    requires m > 0.0
    ensures x < 0.0 <==> x / m < 0.0
  {
    var q := x / m;
    assert q * m == x;
    if q < 0.0 {
      assert (-q) * m > 0.0;
    } else {
      assert q * m >= 0.0;
    }
  }

  /** A waveform with peak at most 1 has every sample in [-1, 1]. */
  lemma PeakBound(w: seq<real>)
    requires |w| > 0 && MaxAbs(w) <= 1.0
    ensures PeakAtMost(w, 1.0)
  {
  }

  /** Subtracting what was added gives the array back. */
  lemma SubAdd(a: seq<real>, b: seq<real>)
    requires |a| == |b|
    ensures Sub(Add(a, b), b) == a
  {
    var s := Sub(Add(a, b), b);
    assert forall i :: 0 <= i < |a| ==> s[i] == a[i];
  }

  /** An integer k with k * m <= x < k * m + m is the floor of x / m. */
  lemma FloorOfBounds(x: real, m: real, k: int)
    requires m > 0.0 && k as real * m <= x < k as real * m + m
    ensures (x / m).Floor == k
  {
    var q := x / m;
    QuotientTimes(x, m);
    QuotientBetween(x, m, q, k as real);
  }

  lemma QuotientTimes(x: real, m: real)
    requires m != 0.0
    ensures (x / m) * m == x
  {
  }

  lemma QuotientBetween(x: real, m: real, q: real, k: real)
    requires m > 0.0 && q * m == x && k * m <= x < k * m + m
    ensures k <= q < k + 1.0
  {
    assert (k + 1.0) * m == k * m + m;
    ScaleOrder(k, q, m);
    ScaleOrder(q, k + 1.0, m);
  }

  /** Multiplying by a positive factor keeps the order. */
  lemma ScaleOrder(a: real, b: real, m: real)
    requires m > 0.0
    ensures a * m <= b * m <==> a <= b
    ensures a * m < b * m <==> a < b
  {
    var d := b - a;
    assert d * m == b * m - a * m;
    QuotientSign(d * m, m);
    ProductQuotient(d, m);
  }



  /** Scaling by a factor of magnitude at most 1 does not increase a magnitude. */
  lemma AbsScaleAtMost(x: real, f: real)
    requires -1.0 <= f <= 1.0
    ensures Abs(x * f) <= Abs(x)
  {
    var a := Abs(x);
    var g := Abs(f);
    assert Abs(x * f) == a * g;
    MulNonneg(a, 1.0 - g);
    assert a * (1.0 - g) == a - a * g;
  }
}
