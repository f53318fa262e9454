/** The optional-value type used across the model (JavaScript's `null` and
    `undefined`). */
module Maybe {
  datatype Option<+T> = None | Some(value: T) {
    function GetOr(default: T): T
    {
      match this
      case Some(v) => v
      case None => default
    }
  }
}

/** Decimal numerals: the subset of JavaScript's `Number(string)` conversion
    that the client applies to amounts and deal values, and the decimal
    rendering of natural numbers used in template-literal ids and titles. */
module Numbers {
  import opened Maybe
  import opened Text

  predicate IsDigit(c: char)
  {
    '0' <= c <= '9'
  }

  predicate AllDigits(s: string)
  {
    forall i :: 0 <= i < |s| ==> IsDigit(s[i])
  }

  function DigitValue(c: char): nat
    requires IsDigit(c)
  {
    c as int - '0' as int
  }

  function DigitChar(d: nat): (c: char)
    requires d < 10
    ensures IsDigit(c) && DigitValue(c) == d
  {
    ('0' as int + d) as char
  }

  /** The value of a string of decimal digits, most significant first. */
  function DigitsValue(s: string): nat
    requires AllDigits(s)
  {
    if s == [] then 0 else DigitsValue(s[..|s| - 1]) * 10 + DigitValue(s[|s| - 1])
  }

  /** The value of the digits after a decimal point, `0.d1d2…`. */
  function FractionValue(s: string): (r: real)
    requires AllDigits(s)
    ensures 0.0 <= r < 1.0
  {
    if s == [] then 0.0 else (DigitValue(s[0]) as real + FractionValue(s[1..])) / 10.0
  }

  /** Index of the first occurrence of `c` in `s`, if any. */
  function IndexOfChar(s: string, c: char): (r: Option<nat>)
    ensures r.Some? ==> r.value < |s| && s[r.value] == c && c !in s[..r.value]
    ensures r.None? ==> c !in s
  {
    if s == [] then None
    else if s[0] == c then Some(0)
    else match IndexOfChar(s[1..], c)
      case None => None
      case Some(i) => Some(i + 1)
  }

  /** The first comma replaced by a decimal point (`replace(",", ".")`). */
  function CommaToPoint(s: string): (r: string)
    ensures |r| == |s|
    ensures forall i :: 0 <= i < |s| ==> r[i] == s[i] || (s[i] == ',' && r[i] == '.')
  {
    match IndexOfChar(s, ',')
    case None => s
    case Some(i) => s[i := '.']
  }

  /** An unsigned decimal literal without exponent: `digits`, `digits.digits`,
      `digits.` or `.digits`, with at least one digit. */
  function UnsignedDecimal(s: string): (r: Option<real>)
    ensures r.Some? ==> r.value >= 0.0
  {
    match IndexOfChar(s, '.')
    case None =>
      if s != [] && AllDigits(s) then Some(DigitsValue(s) as real) else None
    case Some(dot) =>
      var whole, frac := s[..dot], s[dot + 1..];
      if AllDigits(whole) && AllDigits(frac) && |whole| + |frac| > 0
      then Some(DigitsValue(whole) as real + FractionValue(frac))
      else None
  }

  /** `Number(s)`: surrounding white space is ignored, the empty string is 0, an
      optional sign precedes an unsigned decimal, anything else is NaN (None). */
  function ParseNumber(s: string): (r: Option<real>)
  {
    var t := Trim(s);
    if t == [] then Some(0.0)
    else if t[0] == '-' then
      match UnsignedDecimal(t[1..])
      case None => None
      case Some(v) => Some(-v)
    else if t[0] == '+' then UnsignedDecimal(t[1..])
    else UnsignedDecimal(t)
  }

  /** The decimal rendering of a natural number, as a template literal prints it. */
  function NatToString(n: nat): (s: string)
    ensures s != [] && AllDigits(s)
    ensures s[0] != '-' && s[0] != '+' && !IsSpace(s[0]) && !IsSpace(s[|s| - 1])
    ensures '.' !in s && ':' !in s
  {
    if n < 10 then [DigitChar(n)] else NatToString(n / 10) + [DigitChar(n % 10)]
  }

  lemma {:induction false} DigitsValueOfNatToString(n: nat)
    ensures DigitsValue(NatToString(n)) == n
  {
    var s := NatToString(n);
    if n < 10 {
      assert s[..0] == [];
    } else {
      DigitsValueOfNatToString(n / 10);
      assert s[..|s| - 1] == NatToString(n / 10);
    }
  }

  /** Round trip: reading back a rendered natural number gives that number. */
  lemma ParseNatToString(n: nat)
    ensures ParseNumber(NatToString(n)) == Some(n as real)
  {
    ParseDigits(NatToString(n));
    DigitsValueOfNatToString(n);
  }

  /** A plain run of digits reads as its decimal value. */
  lemma ParseDigits(s: string)
    requires s != [] && AllDigits(s)
    ensures ParseNumber(s) == Some(DigitsValue(s) as real)
  {
    DigitsAreTrimmed(s);
    UnsignedDigits(s);
    assert IsDigit(s[0]);
    assert s[0] != '-' && s[0] != '+';
  }

  lemma DigitsAreTrimmed(s: string)
    requires s != [] && AllDigits(s)
    ensures Trim(s) == s
  {
    TrimOfTrimmed(s);
  }

  lemma UnsignedDigits(s: string)
    requires s != [] && AllDigits(s)
    ensures UnsignedDecimal(s) == Some(DigitsValue(s) as real)
  {
    assert IndexOfChar(s, '.') == None;
  }

  /** Different numbers render differently, so generated ids do not collide. */
  lemma NatToStringInjective(m: nat, n: nat)
    requires NatToString(m) == NatToString(n)
    ensures m == n
  {
    DigitsValueOfNatToString(m);
    DigitsValueOfNatToString(n);
  }
}
