/**
 * The two `parseAmount` helpers. The bank-statement hook filters the whole string
 * down to amount characters and maps a failed parse to 0; the document and
 * contract hooks take only the first run of amount characters and let NaN through.
 */
module Amounts {
  import opened Numerals
  import opened JsNumbers
  import opened Optional

  /** `s.replace(/[^\d.,-]/g, '')`: the amount characters of `s`, in order. */
  function KeepAmountChars(s: string): (r: string)
    ensures AmountText(r) && |r| <= |s|
  {
    if s == [] then []
    else (if IsAmountChar(s[0]) then [s[0]] else []) + KeepAmountChars(s[1..])
  }

  /** Filtering keeps only characters of its input, so it adds no digit. */
  lemma {:induction false} KeepAmountCharsAddsNoDigit(s: string)
    requires DigitFree(s)
    ensures DigitFree(KeepAmountChars(s))
    decreases |s|
  {
    if s != [] {
      KeepAmountCharsAddsNoDigit(s[1..]);
    }
  }

  /** Filtering distributes over concatenation. */
  lemma {:induction false} KeepAmountCharsConcat(a: string, b: string)
    ensures KeepAmountChars(a + b) == KeepAmountChars(a) + KeepAmountChars(b)
    decreases |a|
  {
    if a != [] {
      assert (a + b)[1..] == a[1..] + b;
      KeepAmountCharsConcat(a[1..], b);
    } else {
      assert a + b == b;
    }
  }

  /** Filtering text that is already all amount characters changes nothing. */
  lemma {:induction false} KeepAmountCharsOfAmountText(s: string)
    requires AmountText(s)
    ensures KeepAmountChars(s) == s
    decreases |s|
  {
    if s != [] {
      KeepAmountCharsOfAmountText(s[1..]);
    }
  }

  /** `s.replace(',', '.')` with a string pattern: only the first comma becomes a point. */
  function ReplaceFirstComma(s: string): (r: string)
    ensures |r| == |s|
  {
    if s == [] then []
    else if s[0] == ',' then "." + s[1..]
    else [s[0]] + ReplaceFirstComma(s[1..])
  }

  /** Every character but the first comma is kept; that comma becomes a point. */
  lemma {:induction false} ReplaceFirstCommaSpec(s: string)
    ensures forall i :: 0 <= i < |s| && s[i] != ',' ==> ReplaceFirstComma(s)[i] == s[i]
    ensures forall i :: 0 <= i < |s| && s[i] == ',' ==>
              ReplaceFirstComma(s)[i] == (if ',' in s[..i] then ',' else '.')
    decreases |s|
  {
    if s != [] {
      if s[0] == ',' {
        assert forall i :: 1 <= i < |s| ==> s[..i][0] == ',';
      } else {
        ReplaceFirstCommaSpec(s[1..]);
        assert forall i :: 1 <= i < |s| ==> s[1..][..i - 1] == s[1..i];
        assert forall i :: 1 <= i < |s| ==> s[..i] == [s[0]] + s[1..i];
      }
    }
  }

  lemma ReplaceFirstCommaAddsNoDigit(s: string)
    requires DigitFree(s)
    ensures DigitFree(ReplaceFirstComma(s))
  {
    var r := ReplaceFirstComma(s);
    ReplaceFirstCommaSpec(s);
    forall i | 0 <= i < |r| ensures !IsDigit(r[i]) {
      if s[i] == ',' {
        assert r[i] == ',' || r[i] == '.';
      }
    }
  }

  lemma ReplaceFirstCommaKeepsAmountText(s: string)
    requires AmountText(s)
    ensures AmountText(ReplaceFirstComma(s))
  {
    var r := ReplaceFirstComma(s);
    ReplaceFirstCommaSpec(s);
    forall i | 0 <= i < |r| ensures IsAmountChar(r[i]) {
      if s[i] == ',' {
        assert r[i] == ',' || r[i] == '.';
      }
    }
  }

  /** The amount characters of `s` with the first comma made a point: text `parseFloat` can read. */
  function CleanedAmount(s: string): (c: string)
    ensures AmountText(c) && |c| <= |s|
  {
    CleanedWithoutDigits(s);
    ReplaceFirstComma(KeepAmountChars(s))
  }

  /**
   * `parseAmount` of the bank-statement hook: 0 for the empty string, otherwise the
   * cleaned text read by `parseFloat`, with NaN (and 0) turned into 0 by `|| 0`.
   * Text without a digit reads as 0.
   */
  function ParseAmountFiltered(s: string): (r: real)
    ensures s == "" ==> r == 0.0
    ensures s != "" && ParseFloat(CleanedAmount(s)).NaN? ==> r == 0.0
    ensures s != "" && ParseFloat(CleanedAmount(s)).Num? ==> r == ParseFloat(CleanedAmount(s)).value
    ensures DigitFree(s) ==> r == 0.0
  {
    if s == "" then 0.0
    else
      CleanedWithoutDigits(s);
      match ParseFloat(CleanedAmount(s))
      case NaN => 0.0
      case Num(v) => v
  }

  /** The cleaned text is amount text, and without a digit in `s` it reads as NaN. */
  lemma CleanedWithoutDigits(s: string)
    ensures AmountText(ReplaceFirstComma(KeepAmountChars(s)))
    ensures DigitFree(s) ==> ParseFloat(ReplaceFirstComma(KeepAmountChars(s))).NaN?
  {
    ReplaceFirstCommaKeepsAmountText(KeepAmountChars(s));
    if DigitFree(s) {
      KeepAmountCharsAddsNoDigit(s);
      ReplaceFirstCommaAddsNoDigit(KeepAmountChars(s));
      ParseFloatWithoutDigits(ReplaceFirstComma(KeepAmountChars(s)));
    }
  }

  /** The longest prefix of `s` made of amount characters. */
  function LeadingAmountChars(s: string): (r: string)
    ensures |r| <= |s| && r == s[..|r|]
    ensures AmountText(r)
    ensures |r| < |s| ==> !IsAmountChar(s[|r|])
  {
    if s == [] || !IsAmountChar(s[0]) then [] else [s[0]] + LeadingAmountChars(s[1..])
  }

  /** Where the first amount character of `s` sits, if any. */
  function FirstAmountChar(s: string): (r: Option<nat>)
    ensures r.None? <==> forall i :: 0 <= i < |s| ==> !IsAmountChar(s[i])
    ensures r.Some? ==> r.value < |s| && IsAmountChar(s[r.value])
                        && forall i :: 0 <= i < r.value ==> !IsAmountChar(s[i])
  {
    if s == [] then None
    else if IsAmountChar(s[0]) then Some(0)
    else match FirstAmountChar(s[1..])
         case None => None
         case Some(k) => Some(k + 1)
  }

  /** `s.match(/[\d,.-]+/)`: the first maximal run of amount characters. */
  function FirstAmountRun(s: string): (r: Option<string>)
    ensures r.None? <==> forall i :: 0 <= i < |s| ==> !IsAmountChar(s[i])
    ensures r.Some? ==> |r.value| > 0 && AmountText(r.value)
  {
    match FirstAmountChar(s)
    case None => None
    case Some(k) => Some(LeadingAmountChars(s[k..]))
  }

  /**
   * `parseAmount` of the document and contract hooks: 0 when there is no run of
   * amount characters, otherwise `parseFloat` of the first run with its first
   * comma made a point. There is no `|| 0`, so a run such as "-" gives NaN; text
   * without a digit never reads as a number other than 0.
   */
  function ParseAmountFirstRun(s: string): (r: JsNumber)
    ensures FirstAmountRun(s).None? ==> r == Num(0.0)
    ensures FirstAmountRun(s).Some? ==>
              AmountText(ReplaceFirstComma(FirstAmountRun(s).value))
              && r == ParseFloat(ReplaceFirstComma(FirstAmountRun(s).value))
    ensures DigitFree(s) ==> r == NaN || r == Num(0.0)
  {
    match FirstAmountRun(s)
    case None => Num(0.0)
    case Some(run) =>
      RunWithoutDigits(s, run);
      ParseFloat(ReplaceFirstComma(run))
  }

  /** The first run is amount text taken from `s`, so it has no digit when `s` has none. */
  lemma RunWithoutDigits(s: string, run: string)
    requires FirstAmountRun(s) == Some(run)
    ensures AmountText(ReplaceFirstComma(run))
    ensures DigitFree(s) ==> ParseFloat(ReplaceFirstComma(run)).NaN?
  {
    ReplaceFirstCommaKeepsAmountText(run);
    if DigitFree(s) {
      var k := FirstAmountChar(s).value;
      assert run == LeadingAmountChars(s[k..]);
      forall j | 0 <= j < |run| ensures !IsDigit(run[j]) {
        assert run[j] == s[k..][j] == s[k + j];
      }
      ReplaceFirstCommaAddsNoDigit(run);
      ParseFloatWithoutDigits(ReplaceFirstComma(run));
    }
  }

  /** The run-based parser reads 0 only when there is no run at all; a lone sign is NaN. */
  lemma FirstRunLoneSign()
    ensures ParseAmountFirstRun("-") == NaN
    ensures ParseAmountFiltered("-") == 0.0
  {
    assert FirstAmountChar("-") == Some(0);
    assert LeadingAmountChars("-") == "-";
  }

  lemma {:induction false} LeadingAmountCharsOfAmountText(s: string)
    requires AmountText(s)
    ensures LeadingAmountChars(s) == s
    decreases |s|
  {
    if s != [] {
      LeadingAmountCharsOfAmountText(s[1..]);
    }
  }

  lemma CurrencySuffixDropped()
    ensures KeepAmountChars(" RON") == []
  {
    assert " RON"[1..] == "RON";
    assert "RON"[1..] == "ON";
    assert "ON"[1..] == "N";
  }

  /** A trailing unit or currency name is dropped by the filter. */
  lemma KeepAmountCharsDropsSuffix(t: string, u: string)
    requires AmountText(t) && KeepAmountChars(u) == []
    ensures KeepAmountChars(t + u) == t
  {
    KeepAmountCharsConcat(t, u);
    KeepAmountCharsOfAmountText(t);
    assert t + [] == t;
  }

  /** Only the first comma changes: one after comma-free text becomes a point. */
  lemma {:induction false} ReplaceFirstCommaAfter(a: string, b: string)
    requires ',' !in a
    ensures ReplaceFirstComma(a + ("," + b)) == a + ("." + b)
    decreases |a|
  {
    if a == [] {
      assert a + ("," + b) == "," + b;
      assert ("," + b)[1..] == b;
    } else {
      assert (a + ("," + b))[1..] == a[1..] + ("," + b);
      ReplaceFirstCommaAfter(a[1..], b);
      assert a + ("." + b) == [a[0]] + (a[1..] + ("." + b));
    }
  }

  lemma ThousandsTextIsAmountText(whole: string, group: string, cents: string)
    requires AllDigits(whole) && AllDigits(group) && AllDigits(cents)
    ensures AmountText(whole + ("." + (group + ("," + cents))))
  {
    assert AmountText("," + cents);
    assert AmountText(group + ("," + cents));
    assert AmountText("." + (group + ("," + cents)));
  }

  /** The filtering parser, step by step: filter, first comma, `parseFloat`. */
  lemma FilteredSteps(s: string, cleaned: string, v: real)
    requires s != "" && ReplaceFirstComma(KeepAmountChars(s)) == cleaned
    requires AmountText(cleaned) && ParseFloat(cleaned) == Num(v)
    ensures ParseAmountFiltered(s) == v
  {
  }

  /** Filtering and the first-comma replacement turn "w.g,c" + a currency name into "w.g.c". */
  lemma ThousandsCleaned(s: string, whole: string, group: string, cents: string, suffix: string)
    requires AllDigits(whole) && AllDigits(group) && AllDigits(cents)
    requires KeepAmountChars(suffix) == []
    requires s == whole + ("." + (group + ("," + cents))) + suffix
    ensures s != ""
    ensures ReplaceFirstComma(KeepAmountChars(s)) == whole + ("." + group + ("." + cents))
  {
    var text := whole + ("." + (group + ("," + cents)));
    ThousandsTextIsAmountText(whole, group, cents);
    KeepAmountCharsDropsSuffix(text, suffix);
    var head := whole + ("." + group);
    assert "." + (group + ("," + cents)) == ("." + group) + ("," + cents);
    assert text == head + ("," + cents);
    assert ',' !in head by {
      assert forall i :: 0 <= i < |head| ==> IsAmountChar(head[i]) && head[i] != ',';
    }
    ReplaceFirstCommaAfter(head, cents);
    assert head + ("." + cents) == whole + ("." + group + ("." + cents));
  }

  /**
   * An amount written with a thousands point and a decimal comma, followed by a
   * currency name: the point is kept and only the comma becomes a second point, so
   * `parseFloat` stops there and the thousands group is read as the fraction.
   */
  lemma ThousandsSeparatedAmount(s: string, whole: string, group: string, cents: string, suffix: string)
    requires AllDigits(whole) && AllDigits(group) && AllDigits(cents) && |whole| > 0
    requires KeepAmountChars(suffix) == []
    requires s == whole + ("." + (group + ("," + cents))) + suffix
    ensures ParseAmountFiltered(s) == DigitsValue(whole) as real + FractionValue(group)
  {
    ThousandsCleaned(s, whole, group, cents, suffix);
    CleanedThousandsRead(s, whole, group, cents);
  }

  /** Whatever `s` was, once it cleans to "w.g.c" the filtering parser reads w.g. */
  lemma CleanedThousandsRead(s: string, whole: string, group: string, cents: string)
    requires AllDigits(whole) && AllDigits(group) && AllDigits(cents) && |whole| > 0
    requires s != "" && ReplaceFirstComma(KeepAmountChars(s)) == whole + ("." + group + ("." + cents))
    ensures ParseAmountFiltered(s) == DigitsValue(whole) as real + FractionValue(group)
  {
    var cleaned := ReplaceFirstComma(KeepAmountChars(s));
    var v := DigitsValue(whole) as real + FractionValue(group);
    ThousandsRead(cleaned, whole, group, cents, v);
    FilteredSteps(s, cleaned, v);
  }

  /** "w.g.c" reads as w.g: `parseFloat` stops at the second point. */
  lemma ThousandsRead(cleaned: string, whole: string, group: string, cents: string, v: real)
    requires AllDigits(whole) && AllDigits(group) && AllDigits(cents) && |whole| > 0
    requires cleaned == whole + ("." + group + ("." + cents))
    requires v == DigitsValue(whole) as real + FractionValue(group)
    ensures AmountText(cleaned) && ParseFloat(cleaned) == Num(v)
  {
    assert AmountText("." + cents) && ("." + cents)[0] == '.';
    ParseFloatOfLiteral(whole, group, "." + cents);
  }

  lemma RomanianValue()
    ensures DigitsValue("1") as real + FractionValue("234") == 1.234
  {
    assert "234"[..2] == "23";
    assert "23"[..1] == "2";
    assert DigitsValue("234") == 234;
    assert Pow10(3) == 1000;
  }

  /** "1.234,56 RON" reads as 1.234, not 1234.56. */
  lemma FilteredRomanianThousands(s: string)
    requires s == "1" + ("." + ("234" + ("," + "56"))) + " RON"
    ensures ParseAmountFiltered(s) == 1.234
  {
    CurrencySuffixDropped();
    ThousandsSeparatedAmount(s, "1", "234", "56", " RON");
    RomanianValue();
  }

  /** Both parsers read the decimal rendering of an integer back as that integer. */
  lemma ParsersReadIntegers(n: int)
    ensures ParseAmountFiltered(IntToDecimal(n)) == n as real
    ensures ParseAmountFirstRun(IntToDecimal(n)) == Num(n as real)
  {
    var s := IntToDecimal(n);
    ParseFloatOfInteger(n);
    KeepAmountCharsOfAmountText(s);
    assert ',' !in s;
    ReplaceFirstCommaSpec(s);
    assert ReplaceFirstComma(s) == s;
    assert FirstAmountChar(s) == Some(0);
    LeadingAmountCharsOfAmountText(s);
    assert s[0..] == s;
  }

  /** On text made only of amount characters the two parsers agree, up to NaN becoming 0. */
  lemma ParsersAgreeOnAmountText(s: string)
    requires s != "" && AmountText(s)
    ensures ParseAmountFiltered(s) == ParseAmountFirstRun(s).GetOrZero()
  {
    KeepAmountCharsOfAmountText(s);
    assert FirstAmountChar(s) == Some(0);
    LeadingAmountCharsOfAmountText(s);
    assert s[0..] == s;
  }
}
