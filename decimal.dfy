/** Decimal text of integers: `int.ToString()`, `uint.ToString()` and `int.Parse`. */
module Decimal {
  import opened Wrappers
  import Strings

  const Int32Min: int := -0x8000_0000
  const Int32Max: int := 0x7FFF_FFFF

  /** A C# `int`. */
  type Int32 = i: int | Int32Min <= i <= Int32Max

  predicate IsDigit(c: char) {
    '0' <= c <= '9'
  }

  predicate AllDigits(s: string) {
    forall i :: 0 <= i < |s| ==> IsDigit(s[i])
  }

  function DigitChar(d: nat): (c: char)
    requires d < 10
    ensures IsDigit(c) && c as int - '0' as int == d
  {
    ('0' as int + d) as char
  }

  /** The decimal digits of `n`, most significant first, with no leading zero. */
  function NatToString(n: nat): (s: string)
    ensures |s| >= 1 && AllDigits(s)
    ensures s[0] == '0' ==> n == 0 && |s| == 1
    decreases n
  {
    if n < 10 then [DigitChar(n)] else NatToString(n / 10) + [DigitChar(n % 10)]
  }

  /** `int.ToString()` under the invariant culture. */
  function IntToString(i: int): string {
    if i < 0 then "-" + NatToString(-i) else NatToString(i)
  }

  /** The number a run of decimal digits denotes. */
  function DigitsValue(s: string): nat
    requires AllDigits(s)
  {
    if s == [] then 0 else 10 * DigitsValue(s[..|s| - 1]) + (s[|s| - 1] as int - '0' as int)
  }

  /** Reading back the digits of a number gives the number. */
  lemma {:induction false} DigitsValueOfNatToString(n: nat)
    ensures DigitsValue(NatToString(n)) == n
    decreases n
  {
    if n >= 10 {
      var s := NatToString(n);
      DigitsValueOfNatToString(n / 10);
      assert s[..|s| - 1] == NatToString(n / 10);
    }
  }

  /** The leading and trailing characters `NumberStyles.Integer` allows around a number. */
  predicate IsNumberWhite(c: char) {
    ('\U{9}' <= c <= '\U{D}') || c == ' '
  }

  /** Why `int.Parse` throws: FormatException or OverflowException. */
  datatype ParseError = FormatError | OverflowError

  /** `int.Parse(s)`: optional surrounding white space, an optional `-` or `+`, then one or
      more decimal digits; a value outside the 32-bit range is an overflow. */
  function ParseInt32(s: string): (r: Result<int, ParseError>)
    ensures r.Success? ==> Int32Min <= r.value <= Int32Max
    ensures r == Failure(FormatError) <==>
              var t := Strings.TrimBy(s, IsNumberWhite);
              var digits := if t != [] && (t[0] == '-' || t[0] == '+') then t[1..] else t;
              digits == [] || !AllDigits(digits)
  {
    var t := Strings.TrimBy(s, IsNumberWhite);
    var negative := t != [] && t[0] == '-';
    var digits := if t != [] && (t[0] == '-' || t[0] == '+') then t[1..] else t;
    if digits == [] || !AllDigits(digits) then Failure(FormatError)
    else
      var magnitude: int := DigitsValue(digits);
      var v := if negative then -magnitude else magnitude;
      if v < Int32Min || v > Int32Max then Failure(OverflowError) else Success(v)
  }

  /** Every 32-bit integer parses back from its decimal text. */
  lemma ParseIntToString(i: int)
    requires Int32Min <= i <= Int32Max
    ensures ParseInt32(IntToString(i)) == Success(i)
  {
    var s := IntToString(i);
    var n: nat := if i < 0 then -i else i;
    var digits := NatToString(n);
    DigitsValueOfNatToString(n);
    assert s[|s| - 1] == digits[|digits| - 1];
    Strings.TrimByUnchanged(s, IsNumberWhite);
    if i < 0 {
      assert s[1..] == digits;
    }
  }

  /** A canonical decimal text survives a parse and a print. */
  lemma IntToStringParse(s: string)
    requires exists i :: Int32Min <= i <= Int32Max && s == IntToString(i)
    ensures ParseInt32(s).Success? && IntToString(ParseInt32(s).value) == s
  {
    var i :| Int32Min <= i <= Int32Max && s == IntToString(i);
    ParseIntToString(i);
  }
}
