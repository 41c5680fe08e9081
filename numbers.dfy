/** Python's float() applied to a string, for plain decimal notation. */
module Numbers {
  import opened Runtime
  import Text

  predicate IsDigit(c: char) { '0' <= c <= '9' }

  predicate AllDigits(s: string) { forall i :: 0 <= i < |s| ==> IsDigit(s[i]) }

  function Pow10(n: nat): (r: nat)
    ensures r >= 1
  {
    if n == 0 then 1 else 10 * Pow10(n - 1)
  }

  /** The value of a string of decimal digits; the empty string counts 0. */
  function DigitsValue(s: string): nat
    requires AllDigits(s)
  {
    if s == [] then 0 else 10 * DigitsValue(s[..|s| - 1]) + (s[|s| - 1] as int - '0' as int)
  }

  /** str(n) for a natural number: its decimal digits without leading zeros. */
  function NatText(n: nat): (s: string)
    ensures |s| >= 1 && AllDigits(s)
  {
    var d := (n % 10 + '0' as int) as char;
    if n < 10 then [d] else NatText(n / 10) + [d]
  }

  /** Reading back the digits of n gives n. */
  lemma {:induction false} NatTextValue(n: nat)
    ensures DigitsValue(NatText(n)) == n
  {
    var s := NatText(n);
    if n >= 10 {
      NatTextValue(n / 10);
      assert s[..|s| - 1] == NatText(n / 10);
    }
  }

  /** v times ten to the power e. */
  function Scale(v: real, e: int): real
  {
    if e == 0 then v else if e > 0 then v * Pow10(e) as real else v / Pow10(-e) as real
  }

  /** The exponent after 'e' or 'E': an optional sign and at least one digit. */
  function ParseExponent(s: string): Option<int>
  {
    var negative := s != [] && s[0] == '-';
    var digits := if s != [] && (s[0] == '+' || s[0] == '-') then s[1..] else s;
    if digits != [] && AllDigits(digits) then
      var v: int := DigitsValue(digits);
      Some(if negative then -v else v)
    else None
  }

  /** The position of the first exponent marker 'e' or 'E', or |s| when there is none. */
  function ExponentMarker(s: string): (i: nat)
    ensures i <= |s|
  {
    var lower, upper := Text.IndexOf(s, 'e'), Text.IndexOf(s, 'E');
    if lower < upper then lower else upper
  }

  /** The number written with the digits whole before the decimal point and frac after it. */
  function DecimalValue(whole: string, frac: string): real
    requires AllDigits(whole) && AllDigits(frac)
  {
    DigitsValue(whole) as real + DigitsValue(frac) as real / Pow10(|frac|) as real
  }

  /** Digits with at most one '.', and at least one digit: "12", "12.5", "12.", ".5". */
  function ParseMantissa(m: string): Option<real>
  {
    var dot := Text.IndexOf(m, '.');
    var whole := m[..dot];
    var frac := if dot < |m| then m[dot + 1..] else [];
    if AllDigits(whole) && AllDigits(frac) && |whole| + |frac| > 0 then Some(DecimalValue(whole, frac))
    else None
  }

  /** A number without sign: a mantissa and an optional exponent. */
  function ParseUnsigned(s: string): Option<real>
  {
    var e := ExponentMarker(s);
    var exponent := if e == |s| then Some(0) else ParseExponent(s[e + 1..]);
    match (ParseMantissa(s[..e]), exponent)
    case (Some(v), Some(x)) => Some(Scale(v, x))
    case _ => None
  }

  /**
   * Python's float(s) for a string: surrounding whitespace is ignored, one character at a time from
   * either end, then an optional sign and an unsigned number; anything else is not a number (float()
   * raises ValueError).
   */
  function ParseFloat(s: string): Option<real>
    decreases |s|
  {
    if s != [] && Text.IsSpace(s[0]) then ParseFloat(s[1..])
    else if s != [] && Text.IsSpace(s[|s| - 1]) then ParseFloat(s[..|s| - 1])
    else ParseSigned(s)
  }

  /** float(s) reads s.strip(): the whitespace it ignores is exactly what strip() removes. */
  lemma {:induction false} ParseFloatStrips(s: string)
    ensures ParseFloat(s) == ParseSigned(Text.Strip(s))
    decreases |s|
  {
    if s != [] && Text.IsSpace(s[0]) {
      ParseFloatStrips(s[1..]);
      Text.StripDropFirst(s);
    } else if s != [] && Text.IsSpace(s[|s| - 1]) {
      ParseFloatStrips(s[..|s| - 1]);
      Text.StripDropLast(s);
    } else {
      Text.StripTrimmed(s);
    }
  }

  /** An optional '+' or '-' followed by an unsigned number. */
  function ParseSigned(t: string): Option<real>
  {
    var negative := t != [] && t[0] == '-';
    var body := if t != [] && (t[0] == '+' || t[0] == '-') then t[1..] else t;
    match ParseUnsigned(body)
    case None => None
    case Some(v) => Some(if negative then -v else v)
  }

  lemma NoLetterInDigits(s: string, c: char)
    requires AllDigits(s) && !IsDigit(c)
    ensures Text.IndexOf(s, c) == |s|
  {
  }

  /** Without exponent marker the whole string is the mantissa. */
  lemma UnsignedWithoutExponent(s: string)
    requires Text.IndexOf(s, 'e') == |s| && Text.IndexOf(s, 'E') == |s|
    ensures ParseUnsigned(s) == ParseMantissa(s)
  {
    assert s[..|s|] == s;
  }

  /** A trimmed string that starts with a digit is read as an unsigned number. */
  lemma FloatOfUnsigned(s: string)
    requires s != [] && IsDigit(s[0]) && !Text.IsSpace(s[|s| - 1])
    ensures ParseFloat(s) == ParseUnsigned(s)
  {
    assert !Text.IsSpace(s[0]);
    assert s[0] != '+' && s[0] != '-';
  }

  /** float(s) of a plain number without sign, whitespace or exponent is its mantissa's value. */
  lemma FloatOfPlain(s: string)
    requires s != [] && forall i :: 0 <= i < |s| ==> s[i] == '.' || IsDigit(s[i])
    requires IsDigit(s[0])
    ensures ParseFloat(s) == ParseMantissa(s)
  {
    assert !Text.IsSpace(s[|s| - 1]);
    FloatOfUnsigned(s);
    NoMarker(s, 'e');
    NoMarker(s, 'E');
    UnsignedWithoutExponent(s);
  }

  lemma NoMarker(s: string, c: char)
    requires forall i :: 0 <= i < |s| ==> s[i] == '.' || IsDigit(s[i])
    requires c != '.' && !IsDigit(c)
    ensures Text.IndexOf(s, c) == |s|
  {
  }

  /** float(d + "." + f) for digit strings d and f is d plus f read as a fraction. */
  lemma ParseDecimal(whole: string, frac: string)
    requires whole != [] && AllDigits(whole) && AllDigits(frac)
    ensures ParseFloat(whole + "." + frac) == Some(DecimalValue(whole, frac))
  {
    var s := whole + "." + frac;
    assert forall i :: 0 <= i < |s| ==> s[i] == '.' || IsDigit(s[i]) by {
      forall i | 0 <= i < |s| ensures s[i] == '.' || IsDigit(s[i]) {
        if i < |whole| { assert s[i] == whole[i]; }
        else if i > |whole| { assert s[i] == frac[i - |whole| - 1]; }
      }
    }
    assert s[0] == whole[0];
    FloatOfPlain(s);
    MantissaWithDot(whole, frac);
  }

  lemma MantissaWithDot(whole: string, frac: string)
    requires AllDigits(whole) && AllDigits(frac)
    ensures ParseMantissa(whole + "." + frac) == if |whole| + |frac| > 0 then Some(DecimalValue(whole, frac)) else None
  {
    var s := whole + "." + frac;
    Text.IndexOfAt(s, '.', |whole|);
    var dot := Text.IndexOf(s, '.');
    assert s[dot + 1..] == frac;
    assert s[..dot] == whole;
  }

  lemma MantissaOfDigits(s: string)
    requires s != [] && AllDigits(s)
    ensures ParseMantissa(s) == Some(DigitsValue(s) as real)
  {
    NoLetterInDigits(s, '.');
    assert s[..|s|] == s;
    assert DecimalValue(s, []) == DigitsValue(s) as real;
  }

  /** float(str(n)) == n: the digits of a natural number parse back to it. */
  lemma ParseNatText(n: nat)
    ensures ParseFloat(NatText(n)) == Some(n as real)
  {
    var s := NatText(n);
    NatTextValue(n);
    FloatOfPlain(s);
    MantissaOfDigits(s);
  }

  /** float("-" + str(n)) == -n. */
  lemma ParseNegativeNatText(n: nat)
    ensures ParseFloat("-" + NatText(n)) == Some(-(n as real))
  {
    var s := NatText(n);
    NatTextValue(n);
    MantissaOfDigits(s);
    NoLetterInDigits(s, 'e');
    NoLetterInDigits(s, 'E');
    UnsignedWithoutExponent(s);
    NegatedFloat(s, n as real);
  }

  /** A minus sign in front of an unsigned number negates it. */
  lemma NegatedFloat(s: string, v: real)
    requires s != [] && IsDigit(s[|s| - 1]) && ParseUnsigned(s) == Some(v)
    ensures ParseFloat("-" + s) == Some(-v)
  {
    MinusDigits(s);
    SignedNegation(s, v);
  }

  /** A minus sign before a string that ends in a digit is read as a signed number. */
  lemma MinusDigits(s: string)
    requires s != [] && IsDigit(s[|s| - 1])
    ensures ParseFloat("-" + s) == ParseSigned("-" + s)
  {
    var t := "-" + s;
    assert t[|t| - 1] == s[|s| - 1];
    FloatOfSigned(t);
  }

  lemma SignedNegation(s: string, v: real)
    requires ParseUnsigned(s) == Some(v)
    ensures ParseSigned("-" + s) == Some(-v)
  {
    var t := "-" + s;
    assert t[1..] == s;
    NegativeSign(t);
  }

  lemma FloatOfSigned(t: string)
    requires t != [] && t[0] == '-' && !Text.IsSpace(t[|t| - 1])
    ensures ParseFloat(t) == ParseSigned(t)
  {
    Text.StripTrimmed(t);
  }

  lemma NegativeSign(t: string)
    requires t != [] && t[0] == '-'
    ensures ParseSigned(t) == match ParseUnsigned(t[1..]) case None => None case Some(v) => Some(-v)
  {
  }
}
