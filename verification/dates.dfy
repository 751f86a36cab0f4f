/**
 * `parseDate` and `isDateClose`. A parsed date is kept as the three numbers the
 * hooks pass to `new Date(year, monthIndex, day)`; `DayNumber` then applies
 * JavaScript's own normalisation of those numbers and counts days from
 * 1 January 1970, so the seven-day window becomes an integer comparison.
 */
module Dates {
  import opened Numerals
  import opened Optional

  /** The arguments of `new Date(year, monthIndex, day)`; `monthIndex` is zero-based. */
  datatype DateArgs = DateArgs(year: int, monthIndex: int, day: int)

  /** The three regular expressions, in the order they are tried. */
  datatype DateFormat =
    | DotDayFirst    // (\d{2})\.(\d{2})\.(\d{4})
    | IsoYearFirst   // (\d{4})-(\d{2})-(\d{2})
    | SlashDayFirst  // (\d{2})\/(\d{2})\/(\d{4})

  function Rank(f: DateFormat): nat {
    match f
    case DotDayFirst => 0
    case IsoYearFirst => 1
    case SlashDayFirst => 2
  }

  function Separator(f: DateFormat): char {
    match f
    case DotDayFirst => '.'
    case IsoYearFirst => '-'
    case SlashDayFirst => '/'
  }

  /** The ten characters of `s` at `i` match the format (the expressions are not anchored). */
  predicate MatchesAt(s: string, f: DateFormat, i: nat) {
    && i + 10 <= |s|
    && var w := s[i..i + 10];
       var sep := Separator(f);
       if f.IsoYearFirst? then
         AllDigits(w[0..4]) && w[4] == sep && AllDigits(w[5..7]) && w[7] == sep && AllDigits(w[8..10])
       else
         AllDigits(w[0..2]) && w[2] == sep && AllDigits(w[3..5]) && w[5] == sep && AllDigits(w[6..10])
  }

  ghost predicate Matches(s: string, f: DateFormat) {
    exists i: nat :: MatchesAt(s, f, i)
  }

  /** `i` is where `s.match(format)` finds its match: the leftmost one. */
  ghost predicate LeftmostMatch(s: string, f: DateFormat, i: nat) {
    MatchesAt(s, f, i) && forall j: nat :: j < i ==> !MatchesAt(s, f, j)
  }

  /** The leftmost match of `f` at or after `from`. */
  function FindMatch(s: string, f: DateFormat, from: nat): (r: Option<nat>)
    ensures r.Some? ==> from <= r.value && MatchesAt(s, f, r.value)
                        && forall j: nat :: from <= j < r.value ==> !MatchesAt(s, f, j)
    ensures r.None? ==> forall j: nat :: from <= j ==> !MatchesAt(s, f, j)
    decreases |s| - from
  {
    if from + 10 > |s| then None
    else if MatchesAt(s, f, from) then Some(from)
    else FindMatch(s, f, from + 1)
  }

  /** The captured groups, read with `parseInt` and ordered as the constructor takes them. */
  function Captured(s: string, f: DateFormat, i: nat): DateArgs
    requires MatchesAt(s, f, i)
  {
    var w := s[i..i + 10];
    if f.IsoYearFirst? then
      DateArgs(DigitsValue(w[0..4]), DigitsValue(w[5..7]) - 1, DigitsValue(w[8..10]))
    else
      DateArgs(DigitsValue(w[6..10]), DigitsValue(w[3..5]) - 1, DigitsValue(w[0..2]))
  }

  /** The format whose leftmost match `parseDate` uses: the first format that matches anywhere. */
  ghost predicate Chosen(s: string, f: DateFormat, i: nat) {
    && LeftmostMatch(s, f, i)
    && forall g: DateFormat :: Rank(g) < Rank(f) ==> !Matches(s, g)
  }

  function TryFormat(s: string, f: DateFormat): Option<DateArgs> {
    match FindMatch(s, f, 0)
    case None => None
    case Some(i) => Some(Captured(s, f, i))
  }

  /**
   * `parseDate(s)`: null for the empty string or when no format matches anywhere;
   * otherwise the groups of the leftmost match of the first format that matches.
   */
  function ParseDate(s: string): (r: Option<DateArgs>)
    ensures r.None? <==> s == "" || forall f: DateFormat, j: nat :: !MatchesAt(s, f, j)
    ensures r.Some? ==> exists f: DateFormat, i: nat :: Chosen(s, f, i) && r.value == Captured(s, f, i)
  {
    if s == "" then None
    else
      var dot := TryFormat(s, DotDayFirst);
      var iso := TryFormat(s, IsoYearFirst);
      var slash := TryFormat(s, SlashDayFirst);
      if dot.Some? then dot
      else if iso.Some? then iso
      else slash
  }

  /** Days from 1 January 1970 to a proleptic Gregorian date (month 1..12, day from 1). */
  function DaysFromCivil(y: int, m: int, d: int): int
    requires 1 <= m <= 12
  {
    var yy := if m <= 2 then y - 1 else y;
    var era := yy / 400;
    var yoe := yy - era * 400;
    var mp := if m > 2 then m - 3 else m + 9;
    var doy := (153 * mp + 2) / 5 + d - 1;
    var doe := yoe * 365 + yoe / 4 - yoe / 100 + doy;
    era * 146097 + doe - 719468
  }

  /** The year `new Date(y, …)` uses: 0..99 mean 1900..1999. */
  function FullYear(y: int): int {
    if 0 <= y <= 99 then 1900 + y else y
  }

  /**
   * The day `new Date(year, monthIndex, day)` stands for, counted from 1 January 1970.
   * Months outside 0..11 roll into neighbouring years and days past the end of a
   * month roll into the next one, so "31.02.2024" is a day in March. For a month
   * index in 0..11 it is the civil day of the full year, that month and the day.
   */
  function DayNumber(a: DateArgs): (r: int)
    ensures 0 <= a.monthIndex < 12 ==> r == DaysFromCivil(FullYear(a.year), a.monthIndex + 1, a.day)
  {
    var y := FullYear(a.year) + a.monthIndex / 12;
    DayOffset(y, a.monthIndex % 12 + 1, a.day);
    DaysFromCivil(y, a.monthIndex % 12 + 1, 1) + a.day - 1
  }

  /** Within a month, the day number grows one by one with the day. */
  lemma DayOffset(y: int, m: int, d: int)
    requires 1 <= m <= 12
    ensures DaysFromCivil(y, m, d) == DaysFromCivil(y, m, 1) + d - 1
  {
  }

  /** The number of days in month `m` (1..12) of the proleptic Gregorian year `y`. */
  function MonthLength(y: int, m: int): (n: int)
    requires 1 <= m <= 12
    ensures 28 <= n <= 31
    ensures m == 2 ==> (n == 29 <==> IsLeapYear(y))
  {
    if m == 2 then (if IsLeapYear(y) then 29 else 28)
    else if m == 4 || m == 6 || m == 9 || m == 11 then 30
    else 31
  }

  predicate IsLeapYear(y: int) {
    y % 4 == 0 && (y % 100 != 0 || y % 400 == 0)
  }

  /**
   * The day after the last day of a month is the first day of the next one, so
   * `new Date(y, m, 0)` names the last day of the month before `m`.
   */
  lemma {:induction false} MonthEndRollsOver(y: int, m: int)
    requires 1 <= m < 12
    ensures DaysFromCivil(y, m, MonthLength(y, m) + 1) == DaysFromCivil(y, m + 1, 1)
  {
    DayOffset(y, m, MonthLength(y, m) + 1);
    if m == 2 {
      MarchFollowsFebruary(y);
    } else {
      NextMonthStart(y, m);
    }
  }

  /** Outside February, a month's first day and the next one's lie in the same March-based year. */
  lemma NextMonthStart(y: int, m: int)
    requires 1 <= m < 12 && m != 2
    ensures DaysFromCivil(y, m + 1, 1) == DaysFromCivil(y, m, 1) + MonthLength(y, m)
  {
    var mp := if m > 2 then m - 3 else m + 9;
    assert (153 * (mp + 1) + 2) / 5 - (153 * mp + 2) / 5 == MonthLength(y, m) by {
      if m == 1 { assert (153 * 10 + 2) / 5 == 306 && (153 * 11 + 2) / 5 == 337; }
      else if m == 3 { assert (153 * 0 + 2) / 5 == 0 && (153 * 1 + 2) / 5 == 31; }
      else if m == 4 { assert (153 * 1 + 2) / 5 == 31 && (153 * 2 + 2) / 5 == 61; }
      else if m == 5 { assert (153 * 2 + 2) / 5 == 61 && (153 * 3 + 2) / 5 == 92; }
      else if m == 6 { assert (153 * 3 + 2) / 5 == 92 && (153 * 4 + 2) / 5 == 122; }
      else if m == 7 { assert (153 * 4 + 2) / 5 == 122 && (153 * 5 + 2) / 5 == 153; }
      else if m == 8 { assert (153 * 5 + 2) / 5 == 153 && (153 * 6 + 2) / 5 == 184; }
      else if m == 9 { assert (153 * 6 + 2) / 5 == 184 && (153 * 7 + 2) / 5 == 214; }
      else if m == 10 { assert (153 * 7 + 2) / 5 == 214 && (153 * 8 + 2) / 5 == 245; }
      else { assert (153 * 8 + 2) / 5 == 245 && (153 * 9 + 2) / 5 == 275; }
    }
  }

  /** 1 March follows February's last day, across the March-based year boundary. */
  lemma MarchFollowsFebruary(y: int)
    ensures DaysFromCivil(y, 3, 1) == DaysFromCivil(y, 2, 1) + MonthLength(y, 2)
  {
    FebruaryFirst(y);
    MarchFirst(y);
    var era, yoe := (y - 1) / 400, (y - 1) % 400;
    EraBoundary(y);
    if yoe == 399 {
      assert (era + 1) * 146097 == era * 146097 + 146097;
      assert DaysBeforeYearOfEra(399) == 145731 && DaysBeforeYearOfEra(0) == 0;
    } else {
      YearOfEraStep(yoe);
    }
  }

  /** 1 February of `y` lies in the March-based year `y - 1`. */
  lemma FebruaryFirst(y: int)
    ensures DaysFromCivil(y, 2, 1) == (y - 1) / 400 * 146097 + DaysBeforeYearOfEra((y - 1) % 400) + 337 - 719468
  {
    assert (153 * 11 + 2) / 5 == 337;
  }

  /** 1 March of `y` starts the March-based year `y`. */
  lemma MarchFirst(y: int)
    ensures DaysFromCivil(y, 3, 1) == y / 400 * 146097 + DaysBeforeYearOfEra(y % 400) - 719468
  {
    assert (153 * 0 + 2) / 5 == 0;
  }

  /** Where `y - 1` and `y` sit in their 400-year eras, and whether `y` is a leap year. */
  lemma EraBoundary(y: int)
    ensures (y - 1) % 400 == 399 ==> y / 400 == (y - 1) / 400 + 1 && y % 400 == 0 && IsLeapYear(y)
    ensures (y - 1) % 400 != 399 ==>
              && y / 400 == (y - 1) / 400 && y % 400 == (y - 1) % 400 + 1
              && (IsLeapYear(y) <==> IsLeapYear(y % 400))
  {
    var q, r := (y - 1) / 400, (y - 1) % 400;
    assert y == 400 * q + r + 1;
    if r == 399 {
      assert y == 400 * (q + 1);
    } else {
      LeapYearOfEra(y, q, r + 1);
    }
  }

  /** Whether a year is a leap year depends only on its place in its 400-year era. */
  lemma LeapYearOfEra(y: int, q: int, r: int)
    requires y == 400 * q + r && 0 <= r < 400
    ensures y / 400 == q && y % 400 == r
    ensures IsLeapYear(y) <==> IsLeapYear(r)
  {
    QuarterShift(y, 100 * q, r);
    CenturyShift(y, 4 * q, r);
  }

  /** Adding a multiple of 4 leaves the remainder by 4 unchanged. */
  lemma QuarterShift(y: int, n: int, r: int)
    requires y == 4 * n + r
    ensures y % 4 == r % 4
  {
  }

  /** Adding a multiple of 100 leaves the remainder by 100 unchanged. */
  lemma CenturyShift(y: int, n: int, r: int)
    requires y == 100 * n + r
    ensures y % 100 == r % 100
  {
  }

  /** Days from the start of a 400-year era to the start of its March-based year `yoe`. */
  function DaysBeforeYearOfEra(yoe: int): int {
    yoe * 365 + yoe / 4 - yoe / 100
  }

  /** A March-based year of an era has 366 days when the next calendar year is a leap year. */
  lemma YearOfEraStep(yoe: int)
    requires 0 <= yoe < 399
    ensures DaysBeforeYearOfEra(yoe + 1) == DaysBeforeYearOfEra(yoe) + (if IsLeapYear(yoe + 1) then 366 else 365)
  {
    QuarterStep(yoe);
    CenturyStep(yoe);
  }

  /** Stepping a number by one raises its quotient by 4 exactly when it reaches a multiple of 4. */
  lemma QuarterStep(a: int)
    ensures (a + 1) / 4 == a / 4 + (if (a + 1) % 4 == 0 then 1 else 0)
  {
  }

  /** Stepping a number by one raises its quotient by 100 exactly when it reaches a multiple of 100. */
  lemma CenturyStep(a: int)
    ensures (a + 1) / 100 == a / 100 + (if (a + 1) % 100 == 0 then 1 else 0)
  {
  }

  /** `parseDate(s) || today` as a day number. */
  function DayOrToday(s: string, today: int): int {
    match ParseDate(s)
    case Some(a) => DayNumber(a)
    case None => today
  }

  /** `parseDate(s)` as an optional day number. */
  function ParsedDay(s: string): Option<int> {
    match ParseDate(s)
    case Some(a) => Some(DayNumber(a))
    case None => None
  }

  /**
   * `isDateClose(date1, date2)` with the default tolerance of 7 days: false when the
   * second date is null, otherwise whether the whole days between them are at most 7.
   */
  function IsDateClose(day1: int, day2: Option<int>): (r: bool)
    ensures r <==> day2.Some? && -7 <= day1 - day2.value <= 7
  {
    match day2
    case None => false
    case Some(d) => (if day1 >= d then day1 - d else d - day1) <= 7
  }

  /** Closeness does not depend on which date comes first. */
  lemma IsDateCloseSymmetric(day1: int, day2: int)
    ensures IsDateClose(day1, Some(day2)) == IsDateClose(day2, Some(day1))
  {
  }

  /** The epoch is day 0. */
  lemma EpochIsDayZero()
    ensures DayNumber(DateArgs(1970, 0, 1)) == 0
  {
  }

  /** A year's 31 December is followed by the next year's 1 January. */
  lemma NewYear(y: int)
    requires y >= 100
    ensures DayNumber(DateArgs(y, 11, 31)) + 1 == DayNumber(DateArgs(y + 1, 0, 1))
  {
    assert 11 / 12 == 0 && 11 % 12 == 11 && 0 / 12 == 0 && 0 % 12 == 0;
    assert (153 * 9 + 2) / 5 == 275 && (153 * 10 + 2) / 5 == 306;
    assert DaysFromCivil(y + 1, 1, 1) == DaysFromCivil(y, 12, 1) + 31;
  }

  /** Twelve months past a month of year `y` is the same month of year `y + 1`. */
  lemma MonthIndexRollsOver(y: int, m: int, d: int)
    requires y >= 100
    ensures DayNumber(DateArgs(y, m + 12, d)) == DayNumber(DateArgs(y + 1, m, d))
  {
    assert (m + 12) / 12 == m / 12 + 1;
    assert (m + 12) % 12 == m % 12;
  }

  /** Two-digit years are read as years of the twentieth century. */
  lemma TwoDigitYears(y: int, m: int, d: int)
    requires 0 <= y <= 99
    ensures DayNumber(DateArgs(y, m, d)) == DayNumber(DateArgs(1900 + y, m, d))
  {
  }

  /** The impossible date 30 February 2024 is normalised to 1 March 2024. */
  lemma ImpossibleDateRollsOver()
    ensures DayNumber(DateArgs(2024, 1, 30)) == DayNumber(DateArgs(2024, 2, 1))
  {
    assert 2023 / 400 == 5 && 2024 / 400 == 5;
    assert (153 * 11 + 2) / 5 == 337;
    assert DaysFromCivil(2024, 2, 1) == 5 * 146097 + 8737 - 719468;
    assert DaysFromCivil(2024, 3, 1) == 5 * 146097 + 8766 - 719468;
  }

  /** Two digits of day, two of month and four of year, as written in a date. */
  predicate DatePieces(dd: string, mm: string, yyyy: string) {
    && |dd| == 2 && |mm| == 2 && |yyyy| == 4
    && AllDigits(dd) && AllDigits(mm) && AllDigits(yyyy)
  }

  function PiecesArgs(dd: string, mm: string, yyyy: string): DateArgs
    requires DatePieces(dd, mm, yyyy)
  {
    DateArgs(DigitsValue(yyyy), DigitsValue(mm) - 1, DigitsValue(dd))
  }

  lemma DotFormat(s: string, dd: string, mm: string, yyyy: string)
    requires DatePieces(dd, mm, yyyy) && s == dd + "." + mm + "." + yyyy
    ensures ParseDate(s) == Some(PiecesArgs(dd, mm, yyyy))
  {
    assert s[0..10] == s;
    assert s[0..2] == dd && s[3..5] == mm && s[6..10] == yyyy;
    assert MatchesAt(s, DotDayFirst, 0);
  }

  lemma IsoFormat(s: string, dd: string, mm: string, yyyy: string)
    requires DatePieces(dd, mm, yyyy) && s == yyyy + "-" + mm + "-" + dd
    ensures ParseDate(s) == Some(PiecesArgs(dd, mm, yyyy))
  {
    assert s[0..10] == s;
    assert s[2] == yyyy[2];
    assert !MatchesAt(s, DotDayFirst, 0);
    assert FindMatch(s, DotDayFirst, 0) == None;
    assert s[0..4] == yyyy && s[5..7] == mm && s[8..10] == dd;
    assert MatchesAt(s, IsoYearFirst, 0);
  }

  lemma SlashFormat(s: string, dd: string, mm: string, yyyy: string)
    requires DatePieces(dd, mm, yyyy) && s == dd + "/" + mm + "/" + yyyy
    ensures ParseDate(s) == Some(PiecesArgs(dd, mm, yyyy))
  {
    assert s[0..10] == s;
    assert s[4] == mm[1];
    assert !MatchesAt(s, DotDayFirst, 0);
    assert FindMatch(s, DotDayFirst, 0) == None;
    assert !MatchesAt(s, IsoYearFirst, 0);
    assert FindMatch(s, IsoYearFirst, 0) == None;
    assert s[0..2] == dd && s[3..5] == mm && s[6..10] == yyyy;
    assert MatchesAt(s, SlashDayFirst, 0);
  }

  /** "DD.MM.YYYY", "YYYY-MM-DD" and "DD/MM/YYYY" for the same day parse to the same date. */
  lemma SameDayInEveryFormat(dd: string, mm: string, yyyy: string)
    requires DatePieces(dd, mm, yyyy)
    ensures ParseDate(dd + "." + mm + "." + yyyy) == Some(PiecesArgs(dd, mm, yyyy))
    ensures ParseDate(yyyy + "-" + mm + "-" + dd) == ParseDate(dd + "." + mm + "." + yyyy)
    ensures ParseDate(dd + "/" + mm + "/" + yyyy) == ParseDate(dd + "." + mm + "." + yyyy)
  {
    DotFormat(dd + "." + mm + "." + yyyy, dd, mm, yyyy);
    IsoFormat(yyyy + "-" + mm + "-" + dd, dd, mm, yyyy);
    SlashFormat(dd + "/" + mm + "/" + yyyy, dd, mm, yyyy);
  }

  /** Leftmost matches are unique. */
  lemma LeftmostUnique(s: string, f: DateFormat, i: nat, j: nat)
    requires LeftmostMatch(s, f, i) && LeftmostMatch(s, f, j)
    ensures i == j
  {
  }

  /**
   * A "DD.MM.YYYY" date anywhere in the text wins over an ISO or slashed date,
   * even one written earlier in the text.
   */
  lemma DotDateWins(s: string, i: nat)
    requires LeftmostMatch(s, DotDayFirst, i)
    ensures ParseDate(s) == Some(Captured(s, DotDayFirst, i))
  {
    var r := ParseDate(s);
    assert r.Some?;
    var f: DateFormat, k: nat :| Chosen(s, f, k) && r.value == Captured(s, f, k);
    assert Matches(s, DotDayFirst);
    assert f == DotDayFirst;
    LeftmostUnique(s, DotDayFirst, i, k);
  }
}
