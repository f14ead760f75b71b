/**
 * The few Python built-ins the admin ledger leans on: `str.lower()`, `int()`
 * applied to a JSON value or a query-string argument, `str()` of an integer,
 * and the optional value Python spells `None`.
 */
module PyBuiltins {

  datatype Option<+T> = None | Some(value: T)

  /** A conversion such as `int(x)`: a value, or the exception it raises. */
  datatype Conversion<+T> = Converted(value: T) | TypeError | ValueError

  /**
   * The kinds of value a decoded JSON body can hold in one field. A number
   * with a fraction or an exponent decodes to a (finite) float.
   */
  datatype JsonValue = JNull | JBool(b: bool) | JInt(i: int) | JFloat(f: real) | JString(s: string) | JList | JDict

  // ---------------------------------------------------------------------
  // str.lower()

  /** Lower-casing of one character (ASCII capitals only). */
  function Lower(c: char): char
  {
    if 'A' <= c <= 'Z' then (c as int + 32) as char else c
  }

  function LowerStr(s: string): (r: string)
    ensures |r| == |s|
    ensures forall i :: 0 <= i < |s| ==> r[i] == Lower(s[i])
  {
    seq(|s|, i requires 0 <= i < |s| => Lower(s[i]))
  }

  /** Lower-casing a string that is already lower-cased changes nothing. */
  lemma LowerStrIdempotent(s: string)
    ensures LowerStr(LowerStr(s)) == LowerStr(s)
  {
  }

  predicate IsHexDigit(c: char)
  {
    '0' <= c <= '9' || 'a' <= c <= 'f' || 'A' <= c <= 'F'
  }

  /** A string of hexadecimal digits only, as a blockchain API spells an address. */
  predicate IsHexString(s: string)
  {
    forall i :: 0 <= i < |s| ==> IsHexDigit(s[i])
  }

  // ---------------------------------------------------------------------
  // int() on text and str() of an int

  predicate IsDigit(c: char)
  {
    '0' <= c <= '9'
  }

  predicate AllDigits(s: string)
  {
    forall i :: 0 <= i < |s| ==> IsDigit(s[i])
  }

  function DigitChar(d: nat): (c: char)
    requires d < 10
    ensures IsDigit(c) && c as int - '0' as int == d
  {
    ('0' as int + d) as char
  }

  /** The value of a string of decimal digits, most significant first. */
  function DigitsValue(s: string): nat
    requires AllDigits(s)
  {
    if s == [] then 0 else DigitsValue(s[..|s| - 1]) * 10 + (s[|s| - 1] as int - '0' as int)
  }

  /** `int(s)` on text: an optional sign followed by one or more decimal digits. */
  function ParseInt(s: string): Option<int>
  {
    if |s| >= 2 && (s[0] == '-' || s[0] == '+') && AllDigits(s[1..]) then
      var magnitude: int := DigitsValue(s[1..]);
      Some(if s[0] == '-' then -magnitude else magnitude)
    else if |s| >= 1 && AllDigits(s) then
      Some(DigitsValue(s))
    else
      None
  }

  function FormatNat(n: nat): (s: string)
    ensures |s| >= 1 && AllDigits(s)
  {
    if n < 10 then [DigitChar(n)] else FormatNat(n / 10) + [DigitChar(n % 10)]
  }

  /** `str(n)`: a minus sign for negative numbers, then the decimal digits. */
  function FormatInt(n: int): string
  {
    if n < 0 then "-" + FormatNat(-n) else FormatNat(n)
  }

  lemma {:induction false} DigitsValueOfFormatNat(n: nat)
    ensures DigitsValue(FormatNat(n)) == n
  {
    if n >= 10 {
      var s := FormatNat(n);
      assert s[..|s| - 1] == FormatNat(n / 10);
      DigitsValueOfFormatNat(n / 10);
    }
  }

  /** Reading back what `str()` printed gives the same integer. */
  lemma ParseFormatInt(n: int)
    ensures ParseInt(FormatInt(n)) == Some(n)
  {
    if n < 0 {
      assert FormatInt(n)[1..] == FormatNat(-n);
      DigitsValueOfFormatNat(-n);
    } else {
      DigitsValueOfFormatNat(n);
    }
  }

  /** `int(f)` on a finite float: the integer part, truncated toward zero. */
  function Truncate(f: real): (n: int)
    ensures f >= 0.0 ==> 0 <= n && n as real <= f < n as real + 1.0
    ensures f < 0.0 ==> n <= 0 && n as real - 1.0 < f <= n as real
  {
    if f >= 0.0 then f.Floor else -((-f).Floor)
  }

  /**
   * `int(v)` on a decoded JSON value: null, lists and objects raise TypeError,
   * text that is not a decimal integer raises ValueError, a float is
   * truncated toward zero and decimal text gives its value.
   */
  function PyInt(v: JsonValue): (c: Conversion<int>)
    ensures c.TypeError? <==> v.JNull? || v.JList? || v.JDict?
    ensures c.ValueError? <==> v.JString? && ParseInt(v.s).None?
    ensures v.JInt? ==> c == Converted(v.i)
    ensures v.JBool? ==> c == Converted(if v.b then 1 else 0)
    ensures v.JFloat? ==> c == Converted(Truncate(v.f))
    ensures v.JString? && ParseInt(v.s).Some? ==> c == Converted(ParseInt(v.s).value)
  {
    match v
    case JNull => TypeError
    case JBool(b) => Converted(if b then 1 else 0)
    case JInt(i) => Converted(i)
    case JFloat(f) => Converted(Truncate(f))
    case JString(s) => (match ParseInt(s) case Some(n) => Converted(n) case None => ValueError)
    case JList => TypeError
    case JDict => TypeError
  }

  lemma PyIntOfFormatted(n: int)
    ensures PyInt(JString(FormatInt(n))) == Converted(n)
  {
    ParseFormatInt(n);
  }
}
