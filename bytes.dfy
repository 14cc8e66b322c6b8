/**
 * Byte-level helpers standing in for Go's `byte`, `uint32`, `encoding/binary.BigEndian`,
 * the integer conversions `int8(..)`..`int64(..)`, `^` on bytes and `strings.TrimRight`.
 */
module Bytes {

  type uint8 = x: int | 0 <= x < 0x100
  type uint16 = x: int | 0 <= x < 0x1_0000
  type uint32 = x: int | 0 <= x < 0x1_0000_0000

  /** A `[20]byte`: a SHA-1 digest or a CHAP-SHA1 scramble. */
  type Bytes20 = s: seq<uint8> | |s| == 20
    witness [0, 0, 0, 0, 0, 0, 0, 0, 0, 0, 0, 0, 0, 0, 0, 0, 0, 0, 0, 0]

  /** 256 to the power w: the number of distinct w-byte strings. */
  function Pow256(w: nat): (r: nat)
    ensures r > 0
  {
    if w == 0 then 1 else 256 * Pow256(w - 1)
  }

  /** Go's `uint32(n)` for a non-negative n: the value modulo 2^32. */
  function TruncUint32(n: nat): (r: uint32)
    ensures n < 0x1_0000_0000 ==> r == n
  {
    n % 0x1_0000_0000
  }

  /** The unsigned big-endian reading of s (binary.BigEndian.UintN). */
  function BigEndian(s: seq<uint8>): (n: nat)
    ensures n < Pow256(|s|)
  {
    if s == [] then 0 else BigEndian(s[..|s| - 1]) * 256 + s[|s| - 1]
  }

  /** The w-byte big-endian encoding of n (binary.BigEndian.PutUintN). */
  function ToBigEndian(n: nat, w: nat): (s: seq<uint8>)
    requires n < Pow256(w)
    ensures |s| == w && BigEndian(s) == n
  {
    if w == 0 then []
    else
      var s := ToBigEndian(n / 256, w - 1) + [n % 256];
      assert s[..|s| - 1] == ToBigEndian(n / 256, w - 1);
      s
  }

  /** A one-byte big-endian string is the byte itself. */
  lemma ToBigEndianOneByte(b: uint8)
    ensures ToBigEndian(b, 1) == [b]
  {
    assert b / 256 == 0 && b % 256 == b;
    assert ToBigEndian(0, 0) == [];
  }

  /** A fixed-width big-endian string is determined by its value. */
  lemma {:induction false} BigEndianInjective(s: seq<uint8>)
    ensures ToBigEndian(BigEndian(s), |s|) == s
  {
    if s != [] {
      var init := s[..|s| - 1];
      BigEndianInjective(init);
      assert BigEndian(s) / 256 == BigEndian(init);
      assert BigEndian(s) % 256 == s[|s| - 1];
      assert s == init + [s[|s| - 1]];
    }
  }

  /** Half the range of a w-byte integer: the bound of the signed type. */
  function SignBit(w: nat): (h: int)
    requires w > 0
    ensures h > 0 && 2 * h == Pow256(w)
  {
    128 * Pow256(w - 1)
  }

  /** Go's conversion of a w-byte unsigned value to the signed type of the same width. */
  function TwosComplement(n: nat, w: nat): (i: int)
    requires w > 0 && n < Pow256(w)
    ensures -SignBit(w) <= i < SignBit(w)
    ensures i == n || i == n - Pow256(w)
  {
    if n >= SignBit(w) then n - Pow256(w) else n
  }

  /** The unsigned w-byte pattern of a signed value: the inverse of TwosComplement. */
  function Unsigned(i: int, w: nat): (n: nat)
    requires w > 0 && -SignBit(w) <= i < SignBit(w)
    ensures n < Pow256(w)
    ensures TwosComplement(n, w) == i
  {
    if i < 0 then i + Pow256(w) else i
  }

  function Pow2(k: nat): (r: nat)
    ensures r > 0
  {
    if k == 0 then 1 else 2 * Pow2(k - 1)
  }

  /** The exclusive or of the lowest binary digits of p and q. */
  function XorDigit(p: nat, q: nat): (d: nat)
    ensures d < 2
    ensures d == 0 <==> p % 2 == q % 2
  {
    if p % 2 == q % 2 then 0 else 1
  }

  /** Bitwise exclusive or of the k low binary digits of a and b, one digit at a time. */
  function XorBits(a: nat, b: nat, k: nat): (r: nat)
    ensures r < Pow2(k)
  {
    if k == 0 then 0 else 2 * XorBits(a / 2, b / 2, k - 1) + XorDigit(a % 2, b % 2)
  }

  /** x ^ y ^ y == x for numbers of k binary digits. */
  lemma {:induction false} XorBitsCancels(a: nat, b: nat, k: nat)
    requires a < Pow2(k)
    ensures XorBits(XorBits(a, b, k), b, k) == a
  {
    if k > 0 {
      var x, d := XorBits(a / 2, b / 2, k - 1), XorDigit(a % 2, b % 2);
      HalfBelow(a, k);
      XorBitsCancels(a / 2, b / 2, k - 1);
      calc {
        XorBits(XorBits(a, b, k), b, k);
        XorBits(2 * x + d, b, k);
        { HalveDigit(x, d); }
        2 * XorBits(x, b / 2, k - 1) + XorDigit(d, b % 2);
        2 * (a / 2) + XorDigit(d, b % 2);
        { DigitCancels(a % 2, b % 2); }
        a;
      }
    }
  }

  /** Appending a binary digit to x and taking it off again. */
  lemma HalveDigit(x: nat, bit: nat)
    requires bit < 2
    ensures (2 * x + bit) / 2 == x && (2 * x + bit) % 2 == bit
  {
  }

  /** Dropping the last binary digit of a k-digit number leaves k - 1 digits. */
  lemma HalfBelow(a: nat, k: nat)
    requires k > 0 && a < Pow2(k)
    ensures a / 2 < Pow2(k - 1) && a == 2 * (a / 2) + a % 2
  {
  }

  /** One binary digit: (p ^ q) ^ q == p. */
  lemma DigitCancels(p: nat, q: nat)
    ensures XorDigit(XorDigit(p, q), q) == p % 2
  {
  }

  /** Bitwise exclusive or of two bytes (Go's `^` on byte). */
  function Xor(a: uint8, b: uint8): uint8
  {
    assert Pow2(8) == 0x100;
    XorBits(a, b, 8)
  }

  lemma XorCancels(a: uint8, b: uint8)
    ensures Xor(Xor(a, b), b) == a
  {
    assert Pow2(8) == 0x100;
    XorBitsCancels(a, b, 8);
  }

  /** Byte-wise exclusive or of two strings of equal length. */
  function XorBytes(a: seq<uint8>, b: seq<uint8>): (r: seq<uint8>)
    requires |a| == |b|
    ensures |r| == |a|
    ensures forall i :: 0 <= i < |a| ==> r[i] == Xor(a[i], b[i])
  {
    seq(|a|, i requires 0 <= i < |a| => Xor(a[i], b[i]))
  }

  lemma XorBytesCancels(a: seq<uint8>, b: seq<uint8>)
    requires |a| == |b|
    ensures XorBytes(XorBytes(a, b), b) == a
  {
    var r := XorBytes(XorBytes(a, b), b);
    forall i | 0 <= i < |a| ensures r[i] == a[i] {
      XorCancels(a[i], b[i]);
    }
  }

  /** strings.TrimRight(s, cutset): s without its longest suffix made of cutset bytes. */
  function TrimRight(s: seq<uint8>, cutset: set<uint8>): (r: seq<uint8>)
  {
    if s != [] && s[|s| - 1] in cutset then TrimRight(s[..|s| - 1], cutset) else s
  }

  /** TrimRight removes exactly a maximal suffix of cutset bytes and nothing else. */
  lemma {:induction false} TrimRightSplits(s: seq<uint8>, cutset: set<uint8>)
    ensures var r := TrimRight(s, cutset);
      && |r| <= |s| && r == s[..|r|]
      && (forall i :: |r| <= i < |s| ==> s[i] in cutset)
      && (r == [] || r[|r| - 1] !in cutset)
  {
    if s != [] && s[|s| - 1] in cutset {
      TrimRightSplits(s[..|s| - 1], cutset);
    }
  }
}
