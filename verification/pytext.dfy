/** The parts of Python's text handling the views rely on: `str(int)` as used by an
    f-string, and `str.isdigit()`, `str.isdecimal()` and `int(str)` on digit strings. */
module PyText {
  import opened Wrappers

  /** The error `int(str)` raises on a string it cannot read. */
  datatype ValueError = ValueError

  /** The ASCII character of a decimal digit. */
  function DigitChar(d: nat): (c: char)
    requires d < 10
    ensures '0' <= c <= '9'
  {
    (48 + d) as char
  }

  /** The decimal value of `c` when Unicode classes it as a decimal digit (category Nd).
      Covered blocks: ASCII, Arabic-Indic, Extended Arabic-Indic, Devanagari and Fullwidth. */
  function DecimalValue(c: char): (r: Option<nat>)
    ensures r.Some? ==> r.value < 10
  {
    var n := c as int;
    if 0x30 <= n <= 0x39 then Some(n - 0x30)
    else if 0x660 <= n <= 0x669 then Some(n - 0x660)
    else if 0x6F0 <= n <= 0x6F9 then Some(n - 0x6F0)
    else if 0x966 <= n <= 0x96F then Some(n - 0x966)
    else if 0xFF10 <= n <= 0xFF19 then Some(n - 0xFF10)
    else None
  }

  /** Characters Unicode gives a digit value but no decimal value (numeric type Digit):
      superscripts, subscripts and the circled digits one to nine. */
  predicate IsNonDecimalDigit(c: char) {
    var n := c as int;
    n == 0xB2 || n == 0xB3 || n == 0xB9 || n == 0x2070
    || (0x2074 <= n <= 0x2079) || (0x2080 <= n <= 0x2089)
    || (0x2460 <= n <= 0x2468)
  }

  predicate IsDecimalChar(c: char) {
    DecimalValue(c).Some?
  }

  /** One character of `str.isdigit()`: decimal digits and the other digit characters. */
  predicate IsDigitChar(c: char) {
    IsDecimalChar(c) || IsNonDecimalDigit(c)
  }

  /** `s.isdecimal()`: false on the empty string. */
  predicate StrIsDecimal(s: string) {
    |s| > 0 && forall i :: 0 <= i < |s| ==> IsDecimalChar(s[i])
  }

  /** `s.isdigit()`: false on the empty string. */
  predicate StrIsDigit(s: string) {
    |s| > 0 && forall i :: 0 <= i < |s| ==> IsDigitChar(s[i])
  }

  /** The number a string of decimal digits denotes, most significant digit first. */
  function DigitsValue(s: string): nat
    requires forall i :: 0 <= i < |s| ==> IsDecimalChar(s[i])
  {
    if s == [] then 0
    else
      assert IsDecimalChar(s[|s| - 1]);
      DigitsValue(s[..|s| - 1]) * 10 + DecimalValue(s[|s| - 1]).value
  }

  /** `int(s)` on a string that passed `isdigit()`: it succeeds exactly when every
      character is a decimal digit, and raises ValueError otherwise. */
  function PyInt(s: string): (r: Result<nat, ValueError>)
    ensures r.Success? <==> StrIsDecimal(s)
  {
    if StrIsDecimal(s) then Success(DigitsValue(s)) else Failure(ValueError)
  }

  /** `str(n)` for a natural number: decimal digits without leading zeros. */
  function NatToString(n: nat): (r: string)
    ensures |r| >= 1
    ensures forall i :: 0 <= i < |r| ==> '0' <= r[i] <= '9'
    ensures r[0] == '0' ==> n == 0
  {
    if n < 10 then [DigitChar(n)] else NatToString(n / 10) + [DigitChar(n % 10)]
  }

  /** `str(n)` for any integer: a minus sign in front of a negative number. */
  function IntToString(n: int): (r: string)
    ensures |r| >= 1
    ensures n < 0 <==> r[0] == '-'
  {
    if n < 0 then "-" + NatToString(-n) else NatToString(n)
  }

  lemma DigitCharValue(d: nat)
    requires d < 10
    ensures DecimalValue(DigitChar(d)) == Some(d)
  {
  }

  /** Reading back what `str` wrote gives the number again. */
  lemma {:induction false} NatToStringRoundTrip(n: nat)
    ensures StrIsDecimal(NatToString(n))
    ensures PyInt(NatToString(n)) == Success(n)
  {
    var s := NatToString(n);
    if n < 10 {
      DigitCharValue(n);
      assert s[..|s| - 1] == [];
    } else {
      var p := NatToString(n / 10);
      NatToStringRoundTrip(n / 10);
      DigitCharValue(n % 10);
      assert s == p + [DigitChar(n % 10)];
      assert s[..|s| - 1] == p;
      assert forall i :: 0 <= i < |s| ==> IsDecimalChar(s[i]) by {
        forall i | 0 <= i < |s|
          ensures IsDecimalChar(s[i])
        {
          if i < |p| {
            assert s[i] == p[i];
          }
        }
      }
      assert DigitsValue(s) == DigitsValue(p) * 10 + n % 10;
    }
  }
}
