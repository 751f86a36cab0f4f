/**
 * `parseFloat` over the strings the amount parsers hand it: strings made only of
 * digits, '.', ',' and '-'. Numbers are exact reals; NaN is kept as its own value
 * because one of the amount parsers lets it through.
 */
module JsNumbers {
  import opened Numerals

  datatype JsNumber = Num(value: real) | NaN {

    /** `x || 0`: NaN (and 0) become 0. */
    function GetOrZero(): real {
      if Num? then value else 0.0
    }
  }

  /** The characters an amount string may keep: digits, '.', ',' and '-'. */
  predicate IsAmountChar(c: char) {
    IsDigit(c) || c == '.' || c == ',' || c == '-'
  }

  predicate AmountText(s: string) {
    forall i :: 0 <= i < |s| ==> IsAmountChar(s[i])
  }

  function Abs(x: real): real {
    if x < 0.0 then -x else x
  }

  /** The longest prefix of `s` made of digits. */
  function LeadingDigits(s: string): (r: string)
    ensures |r| <= |s| && r == s[..|r|]
    ensures AllDigits(r)
    ensures |r| < |s| ==> !IsDigit(s[|r|])
  {
    if s == [] || !IsDigit(s[0]) then [] else [s[0]] + LeadingDigits(s[1..])
  }

  function Pow10(n: nat): (r: nat)
    ensures r >= 1
  {
    if n == 0 then 1 else 10 * Pow10(n - 1)
  }

  /** The value of the digits written after a decimal point. */
  function FractionValue(ds: string): real
    requires AllDigits(ds)
  {
    DigitsValue(ds) as real / Pow10(|ds|) as real
  }

  /**
   * The text after an optional leading minus sign. An amount text cannot hold
   * '+', blanks, an exponent or "Infinity", so only this sign can occur.
   */
  function Unsigned(s: string): string {
    if |s| > 0 && s[0] == '-' then s[1..] else s
  }

  /** The digits before the decimal point of an unsigned literal. */
  function WholePart(body: string): string {
    LeadingDigits(body)
  }

  /** The digits after the decimal point, when a point follows the whole part. */
  function FractionPart(body: string): (r: string)
    ensures AllDigits(r)
  {
    var rest := body[|WholePart(body)|..];
    if |rest| > 0 && rest[0] == '.' then LeadingDigits(rest[1..]) else ""
  }

  /**
   * `parseFloat(s)`: reads the longest prefix that is a decimal literal
   * (sign, digits, optionally '.' and more digits) and ignores the rest.
   */
  function ParseFloat(s: string): (r: JsNumber)
    requires AmountText(s)
    ensures var b := Unsigned(s);
            r.NaN? <==> !((|b| > 0 && IsDigit(b[0])) || (|b| > 1 && b[0] == '.' && IsDigit(b[1])))
    ensures r.Num? && Unsigned(s) == s ==> r.value >= 0.0
  {
    var negative := |s| > 0 && s[0] == '-';
    var whole := WholePart(Unsigned(s));
    var fraction := FractionPart(Unsigned(s));
    if |whole| + |fraction| == 0 then NaN
    else
      var magnitude := DigitsValue(whole) as real + FractionValue(fraction);
      Num(if negative then -magnitude else magnitude)
  }

  /** Text without a digit gives `parseFloat` nothing to read. */
  lemma ParseFloatWithoutDigits(s: string)
    requires AmountText(s) && DigitFree(s)
    ensures ParseFloat(s).NaN?
  {
    var b := Unsigned(s);
    assert |b| > 0 ==> b[0] == s[|s| - |b|];
    assert |b| > 1 ==> b[1] == s[|s| - |b| + 1];
  }

  /** Digits followed by a non-digit: the digits are exactly the leading run. */
  lemma {:induction false} LeadingDigitsOfDigits(s: string, tail: string)
    requires AllDigits(s)
    requires tail == [] || !IsDigit(tail[0])
    ensures LeadingDigits(s + tail) == s
    decreases |s|
  {
    if s != [] {
      assert (s + tail)[1..] == s[1..] + tail;
      LeadingDigitsOfDigits(s[1..], tail);
    } else {
      assert s + tail == tail;
    }
  }

  /** How `whole.fraction tail` splits into the parts `parseFloat` reads. */
  lemma LiteralParts(whole: string, fraction: string, tail: string)
    requires AllDigits(whole) && AllDigits(fraction) && |whole| > 0
    requires tail == [] || !IsDigit(tail[0])
    ensures var s := whole + ("." + fraction + tail);
            Unsigned(s) == s && WholePart(s) == whole && FractionPart(s) == fraction
  {
    var point := "." + fraction + tail;
    var s := whole + point;
    assert s[0] == whole[0];
    LeadingDigitsOfDigits(whole, point);
    assert s[|whole|..] == point;
    assert point[1..] == fraction + tail;
    LeadingDigitsOfDigits(fraction, tail);
  }

  /**
   * A decimal literal `whole.fraction` followed by anything that does not extend it
   * reads as its value: `parseFloat` stops at the first character that cannot continue.
   */
  lemma ParseFloatOfLiteral(whole: string, fraction: string, tail: string)
    requires AllDigits(whole) && AllDigits(fraction) && |whole| > 0
    requires AmountText(tail) && (tail == [] || !IsDigit(tail[0]))
    ensures AmountText(whole + ("." + fraction + tail))
    ensures ParseFloat(whole + ("." + fraction + tail)) == Num(DigitsValue(whole) as real + FractionValue(fraction))
  {
    LiteralParts(whole, fraction, tail);
    LiteralIsAmountText(whole, fraction, tail);
    ParseFloatOfParts(whole + ("." + fraction + tail), whole, fraction);
  }

  lemma LiteralIsAmountText(whole: string, fraction: string, tail: string)
    requires AllDigits(whole) && AllDigits(fraction) && AmountText(tail)
    ensures AmountText(whole + ("." + fraction + tail))
  {
    assert AmountText("." + fraction + tail);
  }

  lemma ParseFloatOfParts(s: string, whole: string, fraction: string)
    requires AmountText(s) && Unsigned(s) == s
    requires WholePart(s) == whole && FractionPart(s) == fraction
    requires AllDigits(whole) && |whole| > 0
    ensures ParseFloat(s) == Num(DigitsValue(whole) as real + FractionValue(fraction))
  {
  }

  /** A run of digits is all whole part. */
  lemma DigitsAreWholePart(s: string)
    requires AllDigits(s) && |s| > 0
    ensures AmountText(s) && Unsigned(s) == s && WholePart(s) == s && FractionPart(s) == []
  {
    LeadingDigitsOfDigits(s, []);
    assert s + [] == s;
    assert s[|s|..] == [];
  }

  /** A leading minus sign negates what the rest reads as. */
  lemma ParseFloatNegated(s: string)
    requires AmountText(s) && Unsigned(s) == s && |s| > 0
    ensures AmountText("-" + s)
    ensures ParseFloat(s).Num? ==> ParseFloat("-" + s) == Num(-ParseFloat(s).value)
  {
    assert ("-" + s)[1..] == s;
  }

  /** A run of digits, optionally after a minus sign, reads as its (negated) value. */
  lemma ParseFloatOfDigits(s: string)
    requires AllDigits(s) && |s| > 0
    ensures AmountText(s) && ParseFloat(s) == Num(DigitsValue(s) as real)
    ensures AmountText("-" + s) && ParseFloat("-" + s) == Num(-(DigitsValue(s) as real))
  {
    DigitsAreWholePart(s);
    ParseFloatOfParts(s, s, []);
    assert FractionValue([]) == 0.0;
    ParseFloatNegated(s);
  }

  /** The decimal rendering of an integer reads back as that integer. */
  lemma ParseFloatOfInteger(n: int)
    ensures AmountText(IntToDecimal(n))
    ensures ParseFloat(IntToDecimal(n)) == Num(n as real)
  {
    var m := if n < 0 then -n else n;
    ParseFloatOfDigits(NatToDecimal(m));
    DecimalRoundTrip(m);
  }
}
