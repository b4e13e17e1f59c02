/**
 * numpy's seeded generator (`np.random.RandomState`, also behind the global
 * `np.random` functions), abstracted: the value of a draw is a deterministic
 * function of the seed and of the kinds of draws made since seeding.  The
 * generator algorithm itself (MT19937 with its uniform and Gaussian
 * transforms) is the uninterpreted `Generator`.
 */
module Rng {
  import opened Signals

  /** A seed numpy accepts: 0 <= seed < 2^32. */
  type Seed = s: int | 0 <= s < 0x1_0000_0000

  /** A `random_sample()` value: in [0, 1). */
  type Unit = r: real | 0.0 <= r < 1.0

  datatype Draw = UniformDraw | NormalDraw

  /**
   * The generator algorithm: the next `random_sample()` and the next
   * `standard_normal()` of a generator seeded with `seed` that has since
   * made the draws in `history`.
   */
  datatype Generator = Generator(unit: (Seed, seq<Draw>) -> Unit, gauss: (Seed, seq<Draw>) -> real)

  function Repeat(d: Draw, n: nat): (h: seq<Draw>)
    ensures |h| == n && forall i :: 0 <= i < n ==> h[i] == d
  {
    seq(n, _ => d)
  }

  /** `uniform(lo, hi)`, which numpy computes as `lo + (hi - lo) * random_sample()`. */
  function UniformAfter(g: Generator, seed: Seed, history: seq<Draw>, lo: real, hi: real): real {
    lo + (hi - lo) * g.unit(seed, history)
  }

  /** `normal(loc, scale)`, which numpy computes as `loc + scale * standard_normal()`. */
  function NormalAfter(g: Generator, seed: Seed, history: seq<Draw>, loc: real, scale: real): real {
    loc + scale * g.gauss(seed, history)
  }

  /** The values of n consecutive `uniform(lo, hi)` draws made after `history`. */
  function Uniforms(g: Generator, seed: Seed, history: seq<Draw>, n: nat, lo: real, hi: real): (xs: seq<real>)
    ensures |xs| == n
    ensures forall i :: 0 <= i < n ==> xs[i] == UniformAfter(g, seed, history + Repeat(UniformDraw, i), lo, hi)
  {
    seq(n, i requires 0 <= i < n => UniformAfter(g, seed, history + Repeat(UniformDraw, i), lo, hi))
  }

  /** The values of `normal(loc, scale, size=n)` drawn after `history`. */
  function Normals(g: Generator, seed: Seed, history: seq<Draw>, n: nat, loc: real, scale: real): (xs: seq<real>)
    ensures |xs| == n
    ensures forall i :: 0 <= i < n ==> xs[i] == NormalAfter(g, seed, history + Repeat(NormalDraw, i), loc, scale)
  {
    seq(n, i requires 0 <= i < n => NormalAfter(g, seed, history + Repeat(NormalDraw, i), loc, scale))
  }

  /** A uniform draw from [lo, hi) lies in it. */
  lemma UniformInRange(g: Generator, seed: Seed, history: seq<Draw>, lo: real, hi: real)
    requires lo <= hi
    ensures lo <= UniformAfter(g, seed, history, lo, hi) <= hi
    ensures lo < hi ==> UniformAfter(g, seed, history, lo, hi) < hi
  {
    var u: real := g.unit(seed, history);
    var w := hi - lo;
    ScaledUnit(w, u);
    assert UniformAfter(g, seed, history, lo, hi) == lo + w * u;
  }

  lemma ScaledUnit(w: real, u: real)
    requires w >= 0.0 && 0.0 <= u < 1.0
    ensures 0.0 <= w * u <= w
    ensures w > 0.0 ==> w * u < w
  {
    var v := 1.0 - u;
    MulNonneg(w, u);
    MulNonneg(w, v);
    assert w * v == w - w * u;
    if w > 0.0 {
      MulPos(w, v);
    }
  }

  lemma RepeatSnoc(d: Draw, n: nat)
    ensures Repeat(d, n) + [d] == Repeat(d, n + 1)
  {
  }

  /** A generator object: its seed and the draws it has made since it was seeded. */
  class RandomState {
    const gen: Generator
    var seed: Seed
    var history: seq<Draw>

    /** `RandomState(seed)`, and `np.random.seed(seed)` on the global generator. */
    constructor (gen: Generator, seed: Seed)
      ensures this.gen == gen && this.seed == seed && history == []
    {
      this.gen := gen;
      this.seed := seed;
      history := [];
    }

    /** `np.random.seed(s)`: re-seeding restarts the stream. */
    method Reseed(s: Seed)
      modifies this
      ensures seed == s && history == []
    {
      seed := s;
      history := [];
    }

    method Uniform(lo: real, hi: real) returns (x: real)
      modifies this`history
      ensures history == old(history) + [UniformDraw]
      ensures x == UniformAfter(gen, seed, old(history), lo, hi)
    {
      x := UniformAfter(gen, seed, history, lo, hi);
      history := history + [UniformDraw];
    }

    /** `normal(loc, scale, size=n)`: n Gaussian draws in order. */
    method NormalArray(n: nat, loc: real, scale: real) returns (xs: seq<real>)
      modifies this`history
      ensures history == old(history) + Repeat(NormalDraw, n)
      ensures xs == Normals(gen, seed, old(history), n, loc, scale)
    {
      xs := Normals(gen, seed, history, n, loc, scale);
      history := history + Repeat(NormalDraw, n);
    }
  }
}
