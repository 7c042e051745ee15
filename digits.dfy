/**
 The expected answer of a digit challenge: the random digit bytes written out
 one after another in decimal, as `byteToStr` does with `fmt.Sprintf("%v", b)`.
 */
module Digits {

  /** Go's `byte` (uint8). */
  type byte = x: int | 0 <= x < 256

  predicate IsDigitChar(c: char) {
    '0' <= c <= '9'
  }

  function DigitChar(d: int): (c: char)
    requires 0 <= d < 10
    ensures IsDigitChar(c)
  {
    ('0' as int + d) as char
  }

  function DigitValue(c: char): (d: int)
    requires IsDigitChar(c)
    ensures 0 <= d < 10
  {
    c as int - '0' as int
  }

  /** `%v` of an unsigned integer: its decimal digits, most significant first,
      without leading zeros. */
  function Decimal(n: nat): (s: string)
    ensures |s| >= 1
    ensures forall i :: 0 <= i < |s| ==> IsDigitChar(s[i])
    ensures s[0] == '0' ==> n == 0
    decreases n
  {
    if n < 10 then [DigitChar(n)] else Decimal(n / 10) + [DigitChar(n % 10)]
  }

  /** The number a string of decimal digits denotes. */
  function DecimalValue(s: string): nat
    requires forall i :: 0 <= i < |s| ==> IsDigitChar(s[i])
    decreases |s|
  {
    if |s| == 0 then 0
    else 10 * DecimalValue(s[..|s| - 1]) + DigitValue(s[|s| - 1])
  }

  /** Reading back the decimal text of `n` gives `n`. */
  lemma {:induction false} DecimalRoundTrip(n: nat)
    ensures DecimalValue(Decimal(n)) == n
    decreases n
  {
    if n >= 10 {
      DecimalRoundTrip(n / 10);
      var s := Decimal(n);
      assert s[..|s| - 1] == Decimal(n / 10);
    }
  }

  /** The answer string for the digit bytes `b`: the decimal texts of the
      bytes, concatenated in order. */
  function DigitsToString(b: seq<byte>): (s: string)
    ensures forall i :: 0 <= i < |s| ==> IsDigitChar(s[i])
    decreases |b|
  {
    if |b| == 0 then "" else DigitsToString(b[..|b| - 1]) + Decimal(b[|b| - 1])
  }

  /** `byteToStr`: builds the answer string in a loop, one byte at a time. */
  method ByteToStr(b: seq<byte>) returns (s: string)
    ensures s == DigitsToString(b)
  {
    s := "";
    for i := 0 to |b|
      invariant s == DigitsToString(b[..i])
    {
      assert b[..i + 1][..i] == b[..i];
      s := s + Decimal(b[i]);
    }
    assert b[..|b|] == b;
  }

  /** For bytes that are single digits (what a random digit generator yields),
      the answer has one character per byte, in order. */
  lemma {:induction false} DigitsToStringOfDigits(b: seq<byte>)
    requires forall i :: 0 <= i < |b| ==> b[i] < 10
    ensures |DigitsToString(b)| == |b|
    ensures forall i :: 0 <= i < |b| ==> DigitsToString(b)[i] == DigitChar(b[i])
    decreases |b|
  {
    if |b| > 0 {
      DigitsToStringOfDigits(b[..|b| - 1]);
    }
  }

  /** Reading an answer made of single digits back, one byte per character. */
  function DigitBytes(s: string): (b: seq<byte>)
    requires forall i :: 0 <= i < |s| ==> IsDigitChar(s[i])
    ensures |b| == |s|
    ensures forall i :: 0 <= i < |s| ==> b[i] < 10
  {
    seq(|s|, i requires 0 <= i < |s| => DigitValue(s[i]) as byte)
  }

  /** Digit bytes survive the trip through their answer string, so distinct
      digit sequences have distinct answers. */
  lemma {:induction false} DigitsRoundTrip(b: seq<byte>)
    requires forall i :: 0 <= i < |b| ==> b[i] < 10
    ensures DigitBytes(DigitsToString(b)) == b
  {
    DigitsToStringOfDigits(b);
    var r := DigitBytes(DigitsToString(b));
    assert |r| == |b|;
    forall i | 0 <= i < |b| ensures r[i] == b[i] {
      assert DigitsToString(b)[i] == DigitChar(b[i]);
    }
  }

  /** Bytes of 10 and above are written with several characters, so for them
      the answer no longer determines the bytes. */
  lemma WideBytesAreAmbiguous()
    ensures DigitsToString([1, 2]) == DigitsToString([12]) == "12"
  {
  }
}
