/**
 * The discrete side of the spectral analyses: the FFT bin frequencies of
 * `np.fft.fftfreq`, the Hann window, boolean masks, and first-index argmax /
 * argmin as numpy computes them.
 */
module Spectra {
  import opened Signals
  import opened Primitives

  /** `np.fft.fftfreq(n, 1.0 / sample_rate)[k]`: bin k, or bin k - n in the upper half, times sample_rate / n. */
  function FftFreq(n: nat, sampleRate: real, k: nat): real
    requires k < n
  {
    var bin := if k < (n - 1) / 2 + 1 then k else k - n;
    bin as real * (sampleRate / n as real)
  }

  function FftFreqs(n: nat, sampleRate: real): (f: seq<real>)
    ensures |f| == n && forall k :: 0 <= k < n ==> f[k] == FftFreq(n, sampleRate, k)
  {
    seq(n, k requires 0 <= k < n => FftFreq(n, sampleRate, k))
  }

  /** For a positive sample rate, exactly the bins 1 .. (n - 1) / 2 have a positive frequency. */
  lemma PositiveBins(n: nat, sampleRate: real, k: nat)
    requires sampleRate > 0.0 && k < n
    ensures FftFreq(n, sampleRate, k) > 0.0 <==> 1 <= k <= (n - 1) / 2
  {
    var step := sampleRate / n as real;
    assert step > 0.0;
    var bin := if k < (n - 1) / 2 + 1 then k else k - n;
    assert FftFreq(n, sampleRate, k) == bin as real * step;
    SignOfProduct(bin as real, step);
  }

  lemma SignOfProduct(a: real, b: real)
    requires b > 0.0
    ensures a * b > 0.0 <==> a > 0.0
  {
    ScaleOrder(0.0, a, b);
  }

  /** `scipy.signal.hann(m)`, the symmetric window: [] for m < 1, [1] for m = 1, else 0.5 - 0.5 cos(2 pi k / (m - 1)). */
  function HannWindow(ops: Ops, m: nat): (w: seq<real>)
    ensures |w| == m
    ensures forall k :: 0 <= k < m ==> 0.0 <= w[k] <= 1.0
  {
    if m == 1 then [1.0]
    else seq(m, k requires 0 <= k < m => 0.5 - 0.5 * ops.cos(2.0 * Pi * k as real / (m - 1) as real))
  }

  /** numpy `a * b` on two arrays of one shape. */
  function Product(a: seq<real>, b: seq<real>): (p: seq<real>)
    requires |a| == |b|
    ensures |p| == |a| && forall i :: 0 <= i < |a| ==> p[i] == a[i] * b[i]
  {
    seq(|a|, i requires 0 <= i < |a| => a[i] * b[i])
  }

  /** `np.argmax(xs)`: the first index of a largest element. */
  function ArgMax(xs: seq<real>): (k: nat)
    requires |xs| > 0
    ensures k < |xs|
    ensures forall i :: 0 <= i < |xs| ==> xs[i] <= xs[k]
    ensures forall i :: 0 <= i < k ==> xs[i] < xs[k]
  {
    if |xs| == 1 then 0
    else
      var k := ArgMax(xs[..|xs| - 1]);
      assert forall i :: 0 <= i < |xs| - 1 ==> xs[..|xs| - 1][i] == xs[i];
      if xs[|xs| - 1] > xs[k] then |xs| - 1 else k
  }

  /** `np.argmin(xs)`: the first index of a smallest element. */
  function ArgMin(xs: seq<real>): (k: nat)
    requires |xs| > 0
    ensures k < |xs|
    ensures forall i :: 0 <= i < |xs| ==> xs[k] <= xs[i]
    ensures forall i :: 0 <= i < k ==> xs[k] < xs[i]
  {
    if |xs| == 1 then 0
    else
      var k := ArgMin(xs[..|xs| - 1]);
      assert forall i :: 0 <= i < |xs| - 1 ==> xs[..|xs| - 1][i] == xs[i];
      if xs[|xs| - 1] < xs[k] then |xs| - 1 else k
  }

  /** `np.abs(freqs - target)` */
  function Distances(freqs: seq<real>, target: real): (d: seq<real>)
    ensures |d| == |freqs| && forall k :: 0 <= k < |freqs| ==> d[k] == Abs(freqs[k] - target)
  {
    seq(|freqs|, k requires 0 <= k < |freqs| => Abs(freqs[k] - target))
  }

  /** `np.argmin(np.abs(freqs - target))`: the first bin nearest to the target frequency. */
  function NearestBin(freqs: seq<real>, target: real): (k: nat)
    requires |freqs| > 0
    ensures k < |freqs|
    ensures forall i :: 0 <= i < |freqs| ==> Abs(freqs[k] - target) <= Abs(freqs[i] - target)
    ensures forall i :: 0 <= i < k ==> Abs(freqs[k] - target) < Abs(freqs[i] - target)
  {
    ArgMin(Distances(freqs, target))
  }

  /** The indices a boolean mask keeps, in increasing order. */
  function Where(mask: seq<bool>): (idx: seq<nat>)
    ensures forall i :: 0 <= i < |idx| ==> idx[i] < |mask| && mask[idx[i]]
    ensures forall i, j :: 0 <= i < j < |idx| ==> idx[i] < idx[j]
    ensures forall k :: 0 <= k < |mask| && mask[k] ==> k in idx
  {
    if |mask| == 0 then []
    else
      var init := mask[..|mask| - 1];
      var rest := Where(init);
      assert forall k :: 0 <= k < |init| ==> init[k] == mask[k];
      rest + (if mask[|mask| - 1] then [|mask| - 1] else [])
  }

  /** `xs[mask]`: the elements at the kept indices. */
  function Select(xs: seq<real>, idx: seq<nat>): (r: seq<real>)
    requires forall i :: 0 <= i < |idx| ==> idx[i] < |xs|
    ensures |r| == |idx| && forall i :: 0 <= i < |idx| ==> r[i] == xs[idx[i]]
  {
    seq(|idx|, i requires 0 <= i < |idx| => xs[idx[i]])
  }
}
