/**
 * The keyed harmonic cipher (HarmonicEncryptor.py).  `encrypt` shifts each
 * harmonic frequency base_freq * h by a pseudo-random offset drawn from a
 * generator freshly seeded from the key; `decrypt` re-draws the same offsets
 * and recovers h = round(f / base_freq).  Harmonic vectors are Python dicts:
 * here, lists of (multiplier, amplitude) pairs in insertion order, which makes
 * the order on which decryption depends explicit.
 */
module Encryption {
  import opened Errors
  import opened Signals
  import opened Rng
  import opened Primitives

  /** A `dict` from harmonic multiplier to amplitude, in insertion order. */
  type HarmonicVector = seq<(int, real)>

  /** The cipher text: (frequency, amplitude) pairs. */
  type EncryptedVector = seq<(real, real)>

  predicate DistinctKeys(v: HarmonicVector) {
    forall i, j :: 0 <= i < j < |v| ==> v[i].0 != v[j].0
  }

  predicate HasKey(d: HarmonicVector, k: int) {
    exists i :: 0 <= i < |d| && d[i].0 == k
  }

  /** `d.get(k)` */
  function Lookup(d: HarmonicVector, k: int): Option<real> {
    if |d| == 0 then None
    else if d[0].0 == k then Some(d[0].1)
    else Lookup(d[1..], k)
  }

  /** `d[k] = x`: a present key keeps its position and takes the new value; a new key is appended. */
  function Put(d: HarmonicVector, k: int, x: real): (r: HarmonicVector)
    ensures Lookup(r, k) == Some(x)
    ensures forall k' :: k' != k ==> Lookup(r, k') == Lookup(d, k')
  {
    if |d| == 0 then [(k, x)]
    else if d[0].0 == k then [(k, x)] + d[1..]
    else [d[0]] + Put(d[1..], k, x)
  }

  /** The keys after `d[k] = x` are those of d and k; keys stay unique. */
  lemma {:induction false} PutKeys(d: HarmonicVector, k: int, x: real)
    ensures forall i :: 0 <= i < |Put(d, k, x)| ==> Put(d, k, x)[i].0 == k || HasKey(d, Put(d, k, x)[i].0)
    ensures DistinctKeys(d) ==> DistinctKeys(Put(d, k, x))
  {
    if |d| > 0 && d[0].0 != k {
      PutKeys(d[1..], k, x);
      TailKeys(d);
      var r := Put(d, k, x);
      assert r == [d[0]] + Put(d[1..], k, x);
      if DistinctKeys(d) {
        forall j | 0 < j < |r|
          ensures r[0].0 != r[j].0
        {
          assert r[j] == Put(d[1..], k, x)[j - 1];
          if r[j].0 != k {
            var t :| 0 <= t < |d| - 1 && d[1..][t].0 == r[j].0;
            assert d[t + 1].0 == r[j].0;
          }
        }
      }
    }
  }

  /** A key of the tail is a key of the whole. */
  lemma TailKeys(d: HarmonicVector)
    requires |d| > 0
    ensures forall k :: HasKey(d[1..], k) ==> HasKey(d, k)
  {
    forall k | HasKey(d[1..], k)
      ensures HasKey(d, k)
    {
      var i :| 0 <= i < |d| - 1 && d[1..][i].0 == k;
      assert d[i + 1].0 == k;
    }
  }

  /** Putting a key that is not present appends the pair. */
  lemma {:induction false} PutNew(d: HarmonicVector, k: int, x: real)
    requires !HasKey(d, k)
    ensures Put(d, k, x) == d + [(k, x)]
  {
    if |d| > 0 {
      assert d[0].0 != k;
      TailKeys(d);
      PutNew(d[1..], k, x);
      assert d == [d[0]] + d[1..];
    }
  }

  /** Python's `round(x)` on a float: to the nearest integer, a tie going to the even one. */
  function RoundHalfEven(x: real): (n: int)
    ensures n as real - 0.5 <= x <= n as real + 0.5
    ensures (x == n as real - 0.5 || x == n as real + 0.5) ==> n % 2 == 0
  {
    var f := x.Floor;
    var d := x - f as real;
    if d < 0.5 then f
    else if d > 0.5 then f + 1
    else if f % 2 == 0 then f
    else f + 1
  }

  lemma RoundIntegral(k: int)
    ensures RoundHalfEven(k as real) == k
  {
  }

  /** `HarmonicEncryptor(encryption_key, max_offset_hz)` */
  datatype HarmonicEncryptor = HarmonicEncryptor(key: string, maxOffset: real) {
    /** `_generate_seed`, computed once by the constructor */
    function Seed(ops: Ops): Seed {
      KeySeed(ops, key)
    }
  }

  /** The defaults `HarmonicEncryptor()`: key "IX369", offsets of at most 12 Hz. */
  const DefaultEncryptor := HarmonicEncryptor("IX369", 12.0)

  /** The i-th offset drawn from a generator freshly seeded from the key: `uniform(-max_offset, max_offset)`. */
  function Offset(ops: Ops, e: HarmonicEncryptor, i: nat): real {
    UniformAfter(ops.gen, e.Seed(ops), Repeat(UniformDraw, i), -e.maxOffset, e.maxOffset)
  }

  /** Entry i of the cipher text: (base_freq * h_i + offset_i, amp_i). */
  function EncryptedEntry(ops: Ops, e: HarmonicEncryptor, v: HarmonicVector, baseFreq: real, i: nat): (real, real)
    requires i < |v|
  {
    (baseFreq * v[i].0 as real + Offset(ops, e, i), v[i].1)
  }

  /** What `encrypt` returns. */
  function Encrypted(ops: Ops, e: HarmonicEncryptor, v: HarmonicVector, baseFreq: real): (r: EncryptedVector)
    ensures |r| == |v|
    ensures forall i :: 0 <= i < |v| ==> r[i].1 == v[i].1
  {
    seq(|v|, i requires 0 <= i < |v| => EncryptedEntry(ops, e, v, baseFreq, i))
  }

  /** `encrypt`: one uniform draw per entry of the vector, in its iteration order. */
  method Encrypt(ops: Ops, e: HarmonicEncryptor, vector: HarmonicVector, baseFreq: real)
    returns (encrypted: EncryptedVector)
    ensures encrypted == Encrypted(ops, e, vector, baseFreq)
  {
    var rng := new RandomState(ops.gen, e.Seed(ops));
    encrypted := [];
    for i := 0 to |vector|
      invariant rng.gen == ops.gen && rng.seed == e.Seed(ops)
      invariant rng.history == Repeat(UniformDraw, i)
      invariant |encrypted| == i
      invariant forall j :: 0 <= j < i ==> encrypted[j] == EncryptedEntry(ops, e, vector, baseFreq, j)
    {
      var (harmonic, amp) := vector[i];
      var baseHz := baseFreq * harmonic as real;
      var offset := rng.Uniform(-e.maxOffset, e.maxOffset);
      assert offset == Offset(ops, e, i);
      assert harmonic == vector[i].0 && amp == vector[i].1;
      assert baseHz + offset == EncryptedEntry(ops, e, vector, baseFreq, i).0;
      assert (baseHz + offset, amp) == EncryptedEntry(ops, e, vector, baseFreq, i);
      encrypted := encrypted + [(baseHz + offset, amp)];
      RepeatSnoc(UniformDraw, i);
    }
  }

  /** Each encrypted frequency lies within max_offset of base_freq * h. */
  lemma EncryptWithinOffset(ops: Ops, e: HarmonicEncryptor, v: HarmonicVector, baseFreq: real, i: nat)
    requires e.maxOffset >= 0.0 && i < |v|
    ensures var f := Encrypted(ops, e, v, baseFreq)[i].0 - baseFreq * v[i].0 as real;
      -e.maxOffset <= f <= e.maxOffset
  {
    UniformInRange(ops.gen, e.Seed(ops), Repeat(UniformDraw, i), -e.maxOffset, e.maxOffset);
  }

  /** The frequency `decrypt` recovers for entry i: the encrypted frequency minus the re-drawn offset. */
  function TrueFreq(ops: Ops, e: HarmonicEncryptor, enc: EncryptedVector, i: nat): real
    requires i < |enc|
  {
    enc[i].0 - Offset(ops, e, i)
  }

  /** The multiplier `decrypt` assigns to entry i: `int(round(true_freq / base_freq))`. */
  function Harmonic(ops: Ops, e: HarmonicEncryptor, enc: EncryptedVector, baseFreq: real, i: nat): int
    requires i < |enc| && baseFreq != 0.0
  {
    RoundHalfEven(TrueFreq(ops, e, enc, i) / baseFreq)
  }

  /** The dict `decrypt` has built after its first n iterations. */
  function DecryptPrefix(ops: Ops, e: HarmonicEncryptor, enc: EncryptedVector, baseFreq: real, n: nat): HarmonicVector
    requires n <= |enc| && baseFreq != 0.0
  {
    if n == 0 then []
    else Put(DecryptPrefix(ops, e, enc, baseFreq, n - 1), Harmonic(ops, e, enc, baseFreq, n - 1), enc[n - 1].1)
  }

  /**
   * What `decrypt` returns.  A zero base frequency raises ZeroDivisionError at
   * the first entry; otherwise decryption never fails, whatever the key.
   */
  function Decrypted(ops: Ops, e: HarmonicEncryptor, enc: EncryptedVector, baseFreq: real): (r: Result<HarmonicVector>)
    ensures r.Failure? <==> |enc| > 0 && baseFreq == 0.0
    ensures r.Failure? ==> r.error == ZeroDivisionError
  {
    if |enc| == 0 then Success([])
    else if baseFreq == 0.0 then Failure(ZeroDivisionError)
    else Success(DecryptPrefix(ops, e, enc, baseFreq, |enc|))
  }

  /** `decrypt`: one uniform draw per encrypted entry, from a generator freshly seeded from the key. */
  method Decrypt(ops: Ops, e: HarmonicEncryptor, encrypted: EncryptedVector, baseFreq: real)
    returns (r: Result<HarmonicVector>)
    ensures r == Decrypted(ops, e, encrypted, baseFreq)
  {
    var rng := new RandomState(ops.gen, e.Seed(ops));
    var decrypted: HarmonicVector := [];
    for i := 0 to |encrypted|
      invariant rng.gen == ops.gen && rng.seed == e.Seed(ops)
      invariant rng.history == Repeat(UniformDraw, i)
      invariant i > 0 ==> baseFreq != 0.0
      invariant i == 0 ==> decrypted == []
      invariant baseFreq != 0.0 ==> decrypted == DecryptPrefix(ops, e, encrypted, baseFreq, i)
    {
      var (encFreq, amp) := encrypted[i];
      var offset := rng.Uniform(-e.maxOffset, e.maxOffset);
      var trueFreq := encFreq - offset;
      if baseFreq == 0.0 {
        return Failure(ZeroDivisionError);
      }
      var harmonic := RoundHalfEven(trueFreq / baseFreq);
      assert offset == Offset(ops, e, i);
      assert harmonic == Harmonic(ops, e, encrypted, baseFreq, i);
      assert amp == encrypted[i].1;
      decrypted := Put(decrypted, harmonic, amp);
      RepeatSnoc(UniformDraw, i);
    }
    r := Success(decrypted);
  }

  /**
   * Encryption and decryption draw from identically seeded generators in the
   * same order, so decryption subtracts exactly the offset encryption added.
   */
  lemma DecryptRecoversFrequency(ops: Ops, e: HarmonicEncryptor, v: HarmonicVector, baseFreq: real, i: nat)
    requires i < |v|
    ensures TrueFreq(ops, e, Encrypted(ops, e, v, baseFreq), i) == baseFreq * v[i].0 as real
  {
    assert Encrypted(ops, e, v, baseFreq)[i] == EncryptedEntry(ops, e, v, baseFreq, i);
  }

  /** The multiplier of entry i survives the division and rounding. */
  lemma DecryptRecoversHarmonic(ops: Ops, e: HarmonicEncryptor, v: HarmonicVector, baseFreq: real, i: nat)
    requires i < |v| && baseFreq != 0.0
    ensures Harmonic(ops, e, Encrypted(ops, e, v, baseFreq), baseFreq, i) == v[i].0
  {
    var h := v[i].0 as real;
    var enc := Encrypted(ops, e, v, baseFreq);
    DecryptRecoversFrequency(ops, e, v, baseFreq, i);
    assert baseFreq * h == h * baseFreq;
    ProductQuotient(h, baseFreq);
    assert TrueFreq(ops, e, enc, i) / baseFreq == h;
    RoundIntegral(v[i].0);
  }

  lemma {:induction false} DecryptPrefixOfEncrypted(ops: Ops, e: HarmonicEncryptor, v: HarmonicVector, baseFreq: real, n: nat)
    requires DistinctKeys(v) && baseFreq != 0.0 && n <= |v|
    ensures DecryptPrefix(ops, e, Encrypted(ops, e, v, baseFreq), baseFreq, n) == v[..n]
  {
    if n > 0 {
      var enc := Encrypted(ops, e, v, baseFreq);
      DecryptPrefixOfEncrypted(ops, e, v, baseFreq, n - 1);
      DecryptRecoversHarmonic(ops, e, v, baseFreq, n - 1);
      assert forall j :: 0 <= j < n - 1 ==> v[..n - 1][j] == v[j];
      PutNew(v[..n - 1], v[n - 1].0, enc[n - 1].1);
      assert v[..n - 1] + [(v[n - 1].0, v[n - 1].1)] == v[..n];
    }
  }

  /**
   * The round trip: with distinct integer multipliers and a nonzero base
   * frequency, decrypting the encryption under the same key gives back the
   * vector, entries and order, in exact real arithmetic.
   */
  lemma DecryptEncrypt(ops: Ops, e: HarmonicEncryptor, v: HarmonicVector, baseFreq: real)
    requires DistinctKeys(v) && baseFreq != 0.0
    ensures Decrypted(ops, e, Encrypted(ops, e, v, baseFreq), baseFreq) == Success(v)
  {
    DecryptPrefixOfEncrypted(ops, e, v, baseFreq, |v|);
    assert v[..|v|] == v;
  }

  /**
   * When several entries decrypt to one multiplier, the dict keeps the
   * amplitude of the last of them.
   */
  lemma {:induction false} DecryptLastWins(ops: Ops, e: HarmonicEncryptor, enc: EncryptedVector, baseFreq: real, j: nat, n: nat)
    requires baseFreq != 0.0 && j < n <= |enc|
    requires forall i :: j < i < n ==> Harmonic(ops, e, enc, baseFreq, i) != Harmonic(ops, e, enc, baseFreq, j)
    ensures Lookup(DecryptPrefix(ops, e, enc, baseFreq, n), Harmonic(ops, e, enc, baseFreq, j)) == Some(enc[j].1)
  {
    if n > j + 1 {
      DecryptLastWins(ops, e, enc, baseFreq, j, n - 1);
    }
  }
}
