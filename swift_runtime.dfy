/**
 The few Swift standard-library behaviours the VietQR codec relies on:
 optionals, runtime traps, `Int(String)`, `String(format: "%02d")`,
 `String(format: "%04X")` and `String.utf8`.
 */
module SwiftRuntime {

  /** Swift's `Optional`. */
  datatype Option<+T> = None | Some(value: T) {
    /** Swift's `??` operator. */
    function GetOr(default: T): T {
      match this
      case Some(v) => v
      case None => default
    }
  }

  /** The outcome of Swift code that may stop the process with a runtime
      trap (a failed precondition of the standard library). */
  datatype Run<+T> = Done(value: T) | Trap {
    predicate IsFailure() {
      Trap?
    }

    function PropagateFailure<U>(): Run<U>
      requires Trap?
    {
      Trap
    }

    function Extract(): T
      requires Done?
    {
      value
    }
  }

  /** `String.hasPrefix`. */
  predicate HasPrefix(s: string, prefix: string) {
    |prefix| <= |s| && s[..|prefix|] == prefix
  }

  /** `String.hasSuffix`. */
  predicate HasSuffix(s: string, suffix: string) {
    |suffix| <= |s| && s[|s| - |suffix|..] == suffix
  }

  // ---------------------------------------------------------------------
  // Decimal digits
  // ---------------------------------------------------------------------

  predicate IsDigit(c: char) {
    '0' <= c <= '9'
  }

  predicate AllDigits(s: string) {
    forall i :: 0 <= i < |s| ==> IsDigit(s[i])
  }

  function DigitValue(c: char): (d: nat)
    requires IsDigit(c)
    ensures d < 10
  {
    c as int - '0' as int
  }

  function DigitChar(d: nat): (c: char)
    requires d < 10
    ensures IsDigit(c) && DigitValue(c) == d
  {
    ('0' as int + d) as char
  }

  /** The number a run of decimal digits denotes, most significant first. */
  function DigitsValue(s: string): nat
    requires AllDigits(s)
  {
    if |s| == 0 then 0 else 10 * DigitsValue(s[..|s| - 1]) + DigitValue(s[|s| - 1])
  }

  const IntMin: int := -0x8000_0000_0000_0000
  const IntMax: int := 0x7FFF_FFFF_FFFF_FFFF

  /** Swift's failable `Int(_ description: String)` in radix 10: an optional
      `+` or `-` sign followed by at least one ASCII digit, and nothing else;
      a value outside the 64-bit range of `Int` gives nil. */
  function ParseInt(s: string): (r: Option<int>)
    ensures r.Some? ==> IntMin <= r.value <= IntMax
    ensures r.Some? ==> |s| >= 1 && (IsDigit(s[0]) || s[0] == '+' || s[0] == '-')
    ensures r.Some? && r.value < 0 ==> s[0] == '-'
  {
    if |s| == 0 then None
    else
      var signed := s[0] == '+' || s[0] == '-';
      var body := if signed then s[1..] else s;
      if |body| == 0 || !AllDigits(body) then None
      else
        var v := if s[0] == '-' then -(DigitsValue(body) as int) else DigitsValue(body);
        if IntMin <= v <= IntMax then Some(v) else None
  }

  /** What `Int(_:)` makes of a two-character string, case by case: two
      digits, or a sign and one digit. */
  lemma ParseIntOfTwo(s: string)
    requires |s| == 2
    ensures IsDigit(s[0]) && IsDigit(s[1]) ==>
              ParseInt(s) == Some(10 * DigitValue(s[0]) + DigitValue(s[1]))
    ensures s[0] == '+' && IsDigit(s[1]) ==> ParseInt(s) == Some(DigitValue(s[1]))
    ensures s[0] == '-' && IsDigit(s[1]) ==> ParseInt(s) == Some(-(DigitValue(s[1]) as int))
    ensures !IsDigit(s[1]) || !(IsDigit(s[0]) || s[0] == '+' || s[0] == '-') ==> ParseInt(s) == None
  {
    if IsDigit(s[0]) && IsDigit(s[1]) {
      assert s[..1] == [s[0]];
      assert DigitsValue(s[..1]) == DigitValue(s[0]) by {
        assert s[..1][..0] == [];
      }
    }
    if (s[0] == '+' || s[0] == '-') && IsDigit(s[1]) {
      var body := s[1..];
      assert body[..0] == [];
      assert DigitsValue(body) == DigitValue(s[1]);
    }
  }

  /** Decimal notation of `n` without leading zeros, as Swift's `%d` prints it. */
  function Decimal(n: nat): (r: string)
    ensures |r| >= 1 && AllDigits(r)
    ensures n < 10 <==> |r| == 1
    decreases n
  {
    if n < 10 then [DigitChar(n)] else Decimal(n / 10) + [DigitChar(n % 10)]
  }

  lemma {:induction false} DecimalValue(n: nat)
    ensures DigitsValue(Decimal(n)) == n
    decreases n
  {
    if n >= 10 {
      DecimalValue(n / 10);
      var d := Decimal(n);
      assert d[..|d| - 1] == Decimal(n / 10);
    }
  }

  lemma {:induction false} DecimalLength(n: nat)
    ensures 10 <= n < 100 ==> |Decimal(n)| == 2
    ensures 100 <= n < 1000 ==> |Decimal(n)| == 3
    ensures n >= 100 ==> |Decimal(n)| >= 3
    decreases n
  {
    if n >= 10 {
      DecimalLength(n / 10);
    }
  }

  /** `String(format: "%02d", n)`: at least two digits, zero-padded. */
  function Format02d(n: nat): (r: string)
    ensures AllDigits(r)
  {
    if n < 10 then ['0', DigitChar(n)] else Decimal(n)
  }

  /** `%02d` writes exactly two digits below 100 and then `Int(_:)` reads
      back the same number; from 100 on it needs three digits or more. */
  lemma FormatThenParse(n: nat)
    ensures n < 100 ==> |Format02d(n)| == 2
    ensures n >= 100 ==> |Format02d(n)| >= 3
    ensures n <= IntMax ==> ParseInt(Format02d(n)) == Some(n)
  {
    DecimalLength(n);
    var f := Format02d(n);
    if n < 10 {
      ParseIntOfTwo(f);
    } else {
      DecimalValue(n);
    }
  }

  // ---------------------------------------------------------------------
  // Upper-case hexadecimal
  // ---------------------------------------------------------------------

  predicate IsUpperHex(c: char) {
    '0' <= c <= '9' || 'A' <= c <= 'F'
  }

  function HexDigit(d: nat): (c: char)
    requires d < 16
    ensures IsUpperHex(c)
  {
    if d < 10 then ('0' as int + d) as char else ('A' as int + d - 10) as char
  }

  function HexDigitValue(c: char): (d: nat)
    requires IsUpperHex(c)
    ensures d < 16
  {
    if c <= '9' then c as int - '0' as int else c as int - 'A' as int + 10
  }

  /** `String(format: "%04X", n)` for a 16-bit `n`: four upper-case hex
      digits, most significant first. */
  function Hex4(n: nat): (r: string)
    requires n < 0x1_0000
    ensures |r| == 4
    ensures forall i :: 0 <= i < 4 ==> IsUpperHex(r[i])
  {
    [HexDigit(n / 4096), HexDigit(n / 256 % 16), HexDigit(n / 16 % 16), HexDigit(n % 16)]
  }

  /** The number four upper-case hex digits denote. */
  function HexValue(s: string): nat
    requires |s| == 4 && forall i :: 0 <= i < 4 ==> IsUpperHex(s[i])
  {
    4096 * HexDigitValue(s[0]) + 256 * HexDigitValue(s[1]) + 16 * HexDigitValue(s[2]) + HexDigitValue(s[3])
  }

  lemma HexDigitRoundTrip(d: nat)
    requires d < 16
    ensures HexDigitValue(HexDigit(d)) == d
  {
  }

  /** Reading the four digits back gives the register value: `%04X` loses
      nothing for a 16-bit value. */
  lemma HexRoundTrip(n: nat)
    requires n < 0x1_0000
    ensures HexValue(Hex4(n)) == n
  {
    var a, b, c, d := n / 4096, n / 256 % 16, n / 16 % 16, n % 16;
    HexDigitRoundTrip(a);
    HexDigitRoundTrip(b);
    HexDigitRoundTrip(c);
    HexDigitRoundTrip(d);
    SplitDigit(n);
    SplitDigit(n / 16);
    SplitDigit(n / 256);
    assert n / 16 / 16 == n / 256 && n / 256 / 16 == n / 4096;
  }

  lemma SplitDigit(x: nat)
    ensures x == 16 * (x / 16) + x % 16
  {
  }

  // ---------------------------------------------------------------------
  // UTF-8
  // ---------------------------------------------------------------------

  /** An octet of the UTF-8 encoding. */
  newtype byte = x: int | 0 <= x < 256

  predicate IsContinuation(b: byte) {
    0x80 <= b < 0xC0
  }

  /** The UTF-8 encoding of one Unicode scalar value. */
  function Utf8Char(c: char): (r: seq<byte>)
    ensures 1 <= |r| <= 4
    ensures (c as int < 0x80) <==> |r| == 1
    ensures |r| == 1 ==> r[0] < 0x80
    ensures |r| == 2 ==> 0xC0 <= r[0] < 0xE0
    ensures |r| == 3 ==> 0xE0 <= r[0] < 0xF0
    ensures |r| == 4 ==> 0xF0 <= r[0] < 0xF8
    ensures forall i :: 1 <= i < |r| ==> IsContinuation(r[i])
  {
    var n := c as int;
    if n < 0x80 then [n as byte]
    else if n < 0x800 then [(0xC0 + n / 64) as byte, (0x80 + n % 64) as byte]
    else if n < 0x10000 then
      [(0xE0 + n / 4096) as byte, (0x80 + n / 64 % 64) as byte, (0x80 + n % 64) as byte]
    else
      [(0xF0 + n / 262144) as byte, (0x80 + n / 4096 % 64) as byte,
       (0x80 + n / 64 % 64) as byte, (0x80 + n % 64) as byte]
  }

  /** `Array(s.utf8)`: the UTF-8 bytes of a string. */
  function Utf8(s: string): (r: seq<byte>)
    ensures |r| >= |s|
  {
    if |s| == 0 then [] else Utf8(s[..|s| - 1]) + Utf8Char(s[|s| - 1])
  }

  predicate IsAscii(s: string) {
    forall i :: 0 <= i < |s| ==> s[i] as int < 0x80
  }

  /** Encoding is a homomorphism: the bytes of a concatenation are the
      concatenation of the bytes. */
  lemma {:induction false} Utf8Append(a: string, b: string)
    ensures Utf8(a + b) == Utf8(a) + Utf8(b)
    decreases |b|
  {
    if |b| > 0 {
      var b' := b[..|b| - 1];
      assert (a + b)[..|a + b| - 1] == a + b';
      Utf8Append(a, b');
    } else {
      assert a + b == a;
    }
  }

  /** On ASCII text there is one byte per character and it is the
      character's code, so Swift's character counts and byte counts agree. */
  lemma {:induction false} Utf8Ascii(s: string)
    requires IsAscii(s)
    ensures |Utf8(s)| == |s|
    ensures forall i :: 0 <= i < |s| ==> Utf8(s)[i] == s[i] as int as byte
  {
    if |s| > 0 {
      Utf8Ascii(s[..|s| - 1]);
    }
  }
}
