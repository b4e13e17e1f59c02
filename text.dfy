/**
 * Bytes and the text renderings the key derivations rely on: the big-endian
 * integer of a byte string (`int.from_bytes(b, 'big')`), the lowercase hex
 * digest (`hexdigest()`), and the decimal rendering of a natural number (`f"{n}"`).
 */
module Text {

  type byte = b: int | 0 <= b < 256

  function Pow256(k: nat): (p: nat)
    ensures p >= 1
  {
    if k == 0 then 1 else 256 * Pow256(k - 1)
  }

  /** `int.from_bytes(bs, 'big')`: the first byte is the most significant. */
  function BigEndian(bs: seq<byte>): (n: nat)
    ensures n < Pow256(|bs|)
  {
    if |bs| == 0 then 0
    else
      var high := BigEndian(bs[..|bs| - 1]);
      ShiftInByte(high, bs[|bs| - 1], Pow256(|bs| - 1));
      high * 256 + bs[|bs| - 1]
  }

  /** Four bytes read big-endian. */
  lemma BigEndianFour(bs: seq<byte>)
    requires |bs| == 4
    ensures BigEndian(bs) == bs[0] as int * 0x100_0000 + bs[1] as int * 0x1_0000 + bs[2] as int * 0x100 + bs[3] as int
  {
    assert bs[..3][..2][..1] == [bs[0]];
    assert bs[..3][..2] == [bs[0], bs[1]];
    assert bs[..3] == [bs[0], bs[1], bs[2]];
    assert BigEndian([bs[0]]) == bs[0];
  }

  lemma ShiftInByte(high: nat, low: nat, p: nat)
    requires high < p && low < 256
    ensures high * 256 + low < 256 * p
  {
    assert high * 256 <= (p - 1) * 256;
  }

  /** The lowercase hexadecimal digit of a nibble. */
  function HexDigit(n: int): (c: char)
    requires 0 <= n < 16
    ensures '0' <= c <= '9' || 'a' <= c <= 'f'
  {
    if n < 10 then (48 + n) as char else (87 + n) as char
  }

  predicate IsLowerHex(s: string) {
    forall i :: 0 <= i < |s| ==> '0' <= s[i] <= '9' || 'a' <= s[i] <= 'f'
  }

  /** `hashlib`'s `hexdigest()`: two lowercase digits per byte, high nibble first. */
  function Hex(bs: seq<byte>): (s: string)
    ensures |s| == 2 * |bs|
    ensures IsLowerHex(s)
  {
    if |bs| == 0 then ""
    else [HexDigit(bs[0] / 16), HexDigit(bs[0] % 16)] + Hex(bs[1..])
  }

  /** Distinct byte strings have distinct hex digests. */
  lemma {:induction false} HexInjective(a: seq<byte>, b: seq<byte>)
    requires Hex(a) == Hex(b)
    ensures a == b
  {
    if |a| > 0 {
      var ha, hb := Hex(a), Hex(b);
      assert ha[0] == hb[0] && ha[1] == hb[1];
      ByteFromNibbles(a[0], b[0]);
      assert ha[2..] == Hex(a[1..]);
      assert hb[2..] == Hex(b[1..]);
      HexInjective(a[1..], b[1..]);
      assert a == [a[0]] + a[1..];
      assert b == [b[0]] + b[1..];
    }
  }

  lemma ByteFromNibbles(x: byte, y: byte)
    requires HexDigit(x / 16) == HexDigit(y / 16)
    requires HexDigit(x % 16) == HexDigit(y % 16)
    ensures x == y
  {
    HexDigitInjective(x / 16, y / 16);
    HexDigitInjective(x % 16, y % 16);
    assert x == (x / 16) * 16 + x % 16;
    assert y == (y / 16) * 16 + y % 16;
  }

  lemma HexDigitInjective(m: int, n: int)
    requires 0 <= m < 16 && 0 <= n < 16 && HexDigit(m) == HexDigit(n)
    ensures m == n
  {
  }

  function DecimalDigit(d: int): (c: char)
    requires 0 <= d < 10
    ensures '0' <= c <= '9'
  {
    (48 + d) as char
  }

  predicate IsDecimal(s: string) {
    forall i :: 0 <= i < |s| ==> '0' <= s[i] <= '9'
  }

  /** `f"{n}"` for a natural number: decimal digits, no leading zero, "0" for zero. */
  function Decimal(n: nat): (s: string)
    ensures |s| > 0 && IsDecimal(s)
    ensures |s| > 1 ==> s[0] != '0'
  {
    if n < 10 then [DecimalDigit(n)] else Decimal(n / 10) + [DecimalDigit(n % 10)]
  }

  /** The value of a string of decimal digits: the inverse of Decimal. */
  function DecimalValue(s: string): nat
    requires IsDecimal(s)
  {
    if |s| == 0 then 0
    else DecimalValue(s[..|s| - 1]) * 10 + (s[|s| - 1] as int - 48)
  }

  lemma {:induction false} DecimalRoundTrip(n: nat)
    ensures DecimalValue(Decimal(n)) == n
  {
    if n >= 10 {
      var s := Decimal(n);
      DecimalRoundTrip(n / 10);
      assert s[..|s| - 1] == Decimal(n / 10);
    }
  }

  /** Distinct naturals render as distinct decimal strings. */
  lemma DecimalInjective(a: nat, b: nat)
    requires Decimal(a) == Decimal(b)
    ensures a == b
  {
    DecimalRoundTrip(a);
    DecimalRoundTrip(b);
  }
}
