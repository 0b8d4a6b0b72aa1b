/** Bytes, byte strings and the small text helpers the drive firmware uses on them. */
module Bytes {

  /** An 8-bit byte (`uint8_t`, or a `char` of a `std::string`). */
  type byte = b: int | 0 <= b < 256

  /** A byte string: file names, paths, commands and listing text. */
  type Name = seq<byte>

  datatype Option<T> = None | Some(value: T)

  const NUL: byte := 0
  const SPACE: byte := 0x20
  const QUOTE: byte := 0x22
  const COMMA: byte := 0x2C
  const ZERO: byte := 0x30

  function Min(a: int, b: int): int { if a <= b then a else b }

  /** The bytes of an ASCII text literal. */
  function Ascii(s: string): Name
  {
    seq(|s|, i requires 0 <= i < |s| => if s[i] as int < 256 then s[i] as int else 0)
  }

  /** `k` copies of byte `b`. */
  function Repeat(b: byte, k: nat): (r: Name)
    ensures |r| == k && forall i :: 0 <= i < k ==> r[i] == b
  {
    seq(k, _ => b)
  }

  function Spaces(k: nat): Name { Repeat(SPACE, k) }

  /**
   * `std::string::operator[]` on a byte string: position |s| reads the
   * terminating NUL; positions beyond it (undefined in C++) read NUL too.
   */
  function At(s: Name, i: nat): byte
  {
    if i < |s| then s[i] else NUL
  }

  predicate StartsWith(s: Name, prefix: Name)
  {
    |prefix| <= |s| && s[..|prefix|] == prefix
  }

  /** `mstr::drop`: the string without its first `k` bytes. */
  function Drop(s: Name, k: nat): Name
  {
    if k <= |s| then s[k..] else []
  }

  /** The string cut to `k` bytes or right-padded with spaces to exactly `k` bytes. */
  function Fit(s: Name, k: nat): (r: Name)
    ensures |r| == k
    ensures forall i :: 0 <= i < k ==> r[i] == if i < |s| then s[i] else SPACE
  {
    if |s| >= k then s[..k] else s + Spaces(k - |s|)
  }

  /** `isspace` in the C locale. */
  predicate IsSpace(b: byte)
  {
    b == SPACE || 9 <= b <= 13
  }

  /** `mstr::ltrim`: drops the leading white space. */
  function LTrim(s: Name): (r: Name)
    ensures |r| <= |s| && r == s[|s| - |r|..]
    ensures r == [] || !IsSpace(r[0])
    ensures forall i :: 0 <= i < |s| - |r| ==> IsSpace(s[i])
  {
    if s != [] && IsSpace(s[0]) then LTrim(s[1..]) else s
  }

  /** Every occurrence of byte `from` replaced by `to` (`mstr::replaceAll` with one-byte strings). */
  function Replace(s: Name, from: byte, to: byte): (r: Name)
    ensures |r| == |s|
    ensures forall i :: 0 <= i < |s| ==> r[i] == if s[i] == from then to else s[i]
  {
    seq(|s|, i requires 0 <= i < |s| => if s[i] == from then to else s[i])
  }

  predicate IsDigit(b: byte) { ZERO <= b <= ZERO + 9 }

  /** `%d` of a natural number. */
  function Decimal(n: nat): (r: Name)
    ensures 1 <= |r|
    ensures forall i :: 0 <= i < |r| ==> IsDigit(r[i])
  {
    if n < 10 then [ZERO + n] else Decimal(n / 10) + [ZERO + n % 10]
  }

  /** `%02d` of a natural number: zero-padded to at least two digits. */
  function Decimal2(n: nat): (r: Name)
    ensures 2 <= |r|
    ensures forall i :: 0 <= i < |r| ==> IsDigit(r[i])
  {
    if n < 10 then [ZERO, ZERO + n] else Decimal(n)
  }

  /** The value of a string of decimal digits (reads the renderings above back). */
  function ParseDecimal(s: Name): nat
    requires forall i :: 0 <= i < |s| ==> IsDigit(s[i])
  {
    if s == [] then 0
    else
      assert IsDigit(s[|s| - 1]);
      ParseDecimal(s[..|s| - 1]) * 10 + (s[|s| - 1] - ZERO)
  }

  lemma {:induction false} ParseDecimalOfDecimal(n: nat)
    ensures ParseDecimal(Decimal(n)) == n
  {
    if n >= 10 {
      var r := Decimal(n);
      assert r[..|r| - 1] == Decimal(n / 10);
      ParseDecimalOfDecimal(n / 10);
    }
  }

  /** A leading zero does not change the value of a digit string. */
  lemma {:induction false} ParseDecimalLeadingZero(s: Name)
    requires forall i :: 0 <= i < |s| ==> IsDigit(s[i])
    ensures ParseDecimal([ZERO] + s) == ParseDecimal(s)
  {
    if s != [] {
      assert ([ZERO] + s)[..|s|] == [ZERO] + s[..|s| - 1];
      ParseDecimalLeadingZero(s[..|s| - 1]);
    }
  }

  lemma ParseDecimalOfDecimal2(n: nat)
    ensures ParseDecimal(Decimal2(n)) == n
  {
    if n < 10 {
      assert Decimal2(n) == [ZERO] + Decimal(n);
      ParseDecimalLeadingZero(Decimal(n));
    }
    ParseDecimalOfDecimal(n);
  }
}
