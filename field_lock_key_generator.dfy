/**
 * The time-window lock key (FieldLockKeyGenerator.py).  The clock is aligned
 * down to a multiple of the window, a seed in [0, 9998] is derived from a
 * trigonometric pattern of the aligned time, and the key is the SHA-256 hex
 * digest of "seed-salt".  The clock reading `time.time()` is a parameter.
 */
module LockKey {
  import opened Errors
  import opened Signals
  import opened Text
  import opened Primitives

  /** `FieldLockKeyGenerator(entropy_salt, time_window)` */
  datatype FieldLockKeyGenerator = FieldLockKeyGenerator(salt: string, window: real)

  /** The defaults: salt "IX-Futakuchi-onna", windows of one second. */
  const DefaultGenerator := FieldLockKeyGenerator("IX-Futakuchi-onna", 1.0)

  /** `int(now // window) * window`: the start of the window the clock reading falls in. */
  function AlignedTime(now: real, window: real): (a: real)
    requires window != 0.0
    ensures window > 0.0 ==> a <= now < a + window
    ensures (a / window).Floor as real == a / window
  {
    var k := (now / window).Floor;
    WindowStart(now, window);
    IntegralMultiple(k, window);
    k as real * window
  }

  lemma WindowStart(now: real, window: real)
    requires window != 0.0
    ensures var a := (now / window).Floor as real * window;
      window > 0.0 ==> a <= now < a + window
  {
    if window > 0.0 {
      FloorScaled(now, window);
    }
  }

  /** `_harmonic_seed(t)`: `int(abs((3 sin 6t + 9 cos 3t) * 1000)) % 9999`. */
  function HarmonicSeed(ops: Ops, t: real): (s: nat)
    ensures s <= 9998
  {
    var h := 3.0 * ops.sin(6.0 * t) + 9.0 * ops.cos(3.0 * t);
    var n := Trunc(Abs(h * 1000.0));
    n % 9999
  }

  /** The string `_hash_key` hashes: the decimal seed, a dash, the salt. */
  function HashInput(g: FieldLockKeyGenerator, seed: nat): (s: string)
    ensures s == Decimal(seed) + "-" + g.salt
    ensures IsDecimal(s[..|Decimal(seed)|]) && s[|Decimal(seed)|] == '-'
  {
    Decimal(seed) + "-" + g.salt
  }

  /** `_hash_key(seed)`: the SHA-256 hex digest of the hash input, 64 lowercase hex digits. */
  function HashKey(ops: Ops, g: FieldLockKeyGenerator, seed: nat): (k: string)
    ensures |k| == 64 && IsLowerHex(k)
  {
    Hex(ops.sha256(HashInput(g, seed)))
  }

  /** `generate_key()` at clock reading `now`: a zero window raises ZeroDivisionError in `//`. */
  function GenerateKey(ops: Ops, g: FieldLockKeyGenerator, now: real): (r: Result<string>)
    ensures r.Failure? <==> g.window == 0.0
    ensures r.Failure? ==> r.error == ZeroDivisionError
    ensures r.Success? ==> |r.value| == 64 && IsLowerHex(r.value)
  {
    if g.window == 0.0 then Failure(ZeroDivisionError)
    else Success(HashKey(ops, g, HarmonicSeed(ops, AlignedTime(now, g.window))))
  }

  /** `verify_key(test_key)` at clock reading `now`. */
  function VerifyKey(ops: Ops, g: FieldLockKeyGenerator, now: real, testKey: string): (r: Result<bool>)
    ensures r.Failure? <==> g.window == 0.0
    ensures r.Success? ==> (r.value <==> GenerateKey(ops, g, now) == Success(testKey))
  {
    var key :- GenerateKey(ops, g, now);
    Success(testKey == key)
  }

  /** Every clock reading in the window that starts at the aligned time aligns to the same start. */
  lemma AlignedConstantInWindow(now: real, later: real, window: real)
    requires window > 0.0
    requires AlignedTime(now, window) <= later < AlignedTime(now, window) + window
    ensures AlignedTime(later, window) == AlignedTime(now, window)
  {
    var k := (now / window).Floor;
    FloorOfBounds(later, window, k);
  }

  /** Any two clock readings in one window yield the same key, so a key verifies for the rest of its window. */
  lemma KeyConstantInWindow(ops: Ops, g: FieldLockKeyGenerator, now: real, later: real)
    requires g.window > 0.0
    requires AlignedTime(now, g.window) <= later < AlignedTime(now, g.window) + g.window
    ensures GenerateKey(ops, g, later) == GenerateKey(ops, g, now)
    ensures VerifyKey(ops, g, later, GenerateKey(ops, g, now).value) == Success(true)
  {
    AlignedConstantInWindow(now, later, g.window);
  }

  /** A clock reading at least one window later falls in a later window. */
  lemma LaterWindow(now: real, d: real, window: real)
    requires window > 0.0 && d >= window
    ensures AlignedTime(now + d, window) > AlignedTime(now, window)
  {
  }

  /** The dash separates the decimal seed from the salt, so equal hash inputs have equal seeds. */
  lemma HashInputInjective(g: FieldLockKeyGenerator, a: nat, b: nat)
    requires HashInput(g, a) == HashInput(g, b)
    ensures a == b
  {
    var s, t := Decimal(a), Decimal(b);
    var x := HashInput(g, a);
    if |s| != |t| {
      assert false;
    }
    assert s == x[..|s|] == t;
    DecimalInjective(a, b);
  }

  /**
   * Keys taken in two windows are equal only if the two harmonic seeds are,
   * provided SHA-256 does not collide on the two hash inputs: a replayed key
   * is accepted in a later window only when the trigonometric seed repeats.
   */
  lemma EqualKeysEqualSeeds(ops: Ops, g: FieldLockKeyGenerator, now: real, later: real)
    requires g.window != 0.0
    requires var a, b := HarmonicSeed(ops, AlignedTime(now, g.window)), HarmonicSeed(ops, AlignedTime(later, g.window));
      ops.sha256(HashInput(g, a)) == ops.sha256(HashInput(g, b)) ==> HashInput(g, a) == HashInput(g, b)
    requires GenerateKey(ops, g, now) == GenerateKey(ops, g, later)
    ensures HarmonicSeed(ops, AlignedTime(now, g.window)) == HarmonicSeed(ops, AlignedTime(later, g.window))
  {
    var a, b := HarmonicSeed(ops, AlignedTime(now, g.window)), HarmonicSeed(ops, AlignedTime(later, g.window));
    HexInjective(ops.sha256(HashInput(g, a)), ops.sha256(HashInput(g, b)));
    HashInputInjective(g, a, b);
  }
}
