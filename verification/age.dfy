/**
 * calculate_age_years_months: a patient's age in whole years and months from
 * month/day/year texts, with two-digit years pivoting at 50. Any malformed or
 * impossible date gives no age instead of an error.
 */
module Age {
  import opened Wrappers
  import opened Strings

  datatype Date = Date(year: int, month: int, day: int)

  predicate IsLeapYear(y: int)
  {
    y % 4 == 0 && (y % 100 != 0 || y % 400 == 0)
  }

  function DaysInMonth(y: int, m: int): (d: int)
    requires 1 <= m <= 12
    ensures 28 <= d <= 31
  {
    if m == 2 then (if IsLeapYear(y) then 29 else 28)
    else if m == 4 || m == 6 || m == 9 || m == 11 then 30
    else 31
  }

  /** The dates the calendar type accepts: years 1..9999 and a day that exists in its month. */
  predicate IsValidDate(d: Date)
  {
    1 <= d.year <= 9999 && 1 <= d.month <= 12 && 1 <= d.day <= DaysInMonth(d.year, d.month)
  }

  /** int() on text: optional surrounding whitespace, an optional sign, then decimal digits. */
  function ParseInt(s: string): Option<int>
  {
    var t := Strip(s);
    if t != [] && (t[0] == '+' || t[0] == '-') then
      var body := t[1..];
      if body != [] && AllDigits(body) then
        var v: int := if t[0] == '-' then -(DigitsValue(body) as int) else DigitsValue(body);
        Some(v)
      else None
    else if t != [] && AllDigits(t) then Some(DigitsValue(t))
    else None
  }

  lemma ParseDigits(s: string)
    requires s != [] && AllDigits(s)
    ensures ParseInt(s) == Some(DigitsValue(s))
  {
    StripUnchanged(s);
  }

  /** A year text of exactly two characters gets "20" in front below 50 and "19" otherwise. */
  function ExpandYear(year: string): Option<string>
  {
    if |year| == 2 then
      match ParseInt(year)
      case None => None
      case Some(y) => Some(if y < 50 then "20" + year else "19" + year)
    else Some(year)
  }

  /** A date from its "M/D/Y" text; parts after the third are ignored. */
  function ParseDate(s: string): (r: Option<Date>)
    ensures r.Some? ==> IsValidDate(r.value)
  {
    var parts := Split(s, '/');
    if |parts| < 3 then None
    else
      match ExpandYear(parts[2])
      case None => None
      case Some(year) =>
        var y := ParseInt(year);
        var m := ParseInt(parts[0]);
        var d := ParseInt(parts[1]);
        if y.Some? && m.Some? && d.Some? && IsValidDate(Date(y.value, m.value, d.value))
        then Some(Date(y.value, m.value, d.value))
        else None
  }

  /** Whole months from `birth` to `visit`: a month not yet completed by the day of the month does not count. */
  function MonthsElapsed(birth: Date, visit: Date): int
  {
    12 * (visit.year - birth.year) + (visit.month - birth.month) - (if visit.day < birth.day then 1 else 0)
  }

  /** The years-and-months arithmetic: months borrow from years when negative. */
  function AgeBetween(birth: Date, visit: Date): (r: (int, int))
    requires 1 <= birth.month <= 12 && 1 <= visit.month <= 12
    ensures 0 <= r.1 <= 11
    ensures 12 * r.0 + r.1 == MonthsElapsed(birth, visit)
  {
    var years := visit.year - birth.year;
    var months := visit.month - birth.month;
    var months' := if visit.day < birth.day then months - 1 else months;
    if months' < 0 then (years - 1, months' + 12) else (years, months')
  }

  /**
   * calculate_age_years_months. `visit` absent or empty means the visit is
   * `today`, the clock's date.
   */
  function CalculateAge(birth: string, visit: Option<string>, today: Date): (r: Option<(int, int)>)
    requires IsValidDate(today)
    ensures r.Some? ==> 0 <= r.value.1 <= 11
    ensures |Split(birth, '/')| < 3 ==> r == None
  {
    match ParseDate(birth)
    case None => None
    case Some(b) =>
      if visit.Some? && visit.value != "" then
        match ParseDate(visit.value)
        case None => None
        case Some(v) => Some(AgeBetween(b, v))
      else Some(AgeBetween(b, today))
  }

  // ----- Properties -----

  /** The age is the quotient and remainder of the whole months elapsed, by 12. */
  lemma AgeIsMonthsElapsed(birth: Date, visit: Date)
    requires 1 <= birth.month <= 12 && 1 <= visit.month <= 12
    ensures AgeBetween(birth, visit).0 == MonthsElapsed(birth, visit) / 12
    ensures AgeBetween(birth, visit).1 == MonthsElapsed(birth, visit) % 12
  {
    var r := AgeBetween(birth, visit);
    var e := MonthsElapsed(birth, visit);
    assert e == 12 * r.0 + r.1;
  }

  lemma CenturyValues()
    ensures AllDigits("20") && DigitsValue("20") == 20
    ensures AllDigits("19") && DigitsValue("19") == 19
  {
    assert "20"[..1] == "2" && "2"[..0] == [];
    assert "19"[..1] == "1" && "1"[..0] == [];
  }

  /** A two-digit year below 50 lands in the 2000s, otherwise in the 1900s. */
  lemma TwoDigitYear(yy: string)
    requires |yy| == 2 && AllDigits(yy)
    ensures ExpandYear(yy).Some?
    ensures ParseInt(ExpandYear(yy).value) ==
      Some(if DigitsValue(yy) < 50 then 2000 + DigitsValue(yy) else 1900 + DigitsValue(yy))
  {
    ParseDigits(yy);
    CenturyValues();
    assert Pow10(|yy|) == 100;
    if DigitsValue(yy) < 50 {
      DigitsValueAppend("20", yy);
      ParseDigits("20" + yy);
    } else {
      DigitsValueAppend("19", yy);
      ParseDigits("19" + yy);
    }
  }

  /** "M/D/Y" splits into its three parts when none of them holds a slash. */
  lemma SplitDate(m: string, d: string, y: string)
    requires '/' !in m && '/' !in d && '/' !in y
    ensures Split(m + "/" + d + "/" + y, '/') == [m, d, y]
  {
    SplitWhole(y, '/');
    SplitAt(d, '/', y);
    SplitAt(m, '/', d + "/" + y);
    assert m + "/" + d + "/" + y == m + ['/'] + (d + ['/'] + y);
  }

  /** The "M/D/Y" text of a date. */
  function FormatDate(d: Date): string
    requires d.year >= 0 && d.month >= 0 && d.day >= 0
  {
    NatToString(d.month) + "/" + NatToString(d.day) + "/" + NatToString(d.year)
  }

  /** The year a digit text stands for once a two-digit year is expanded. */
  function YearValue(y: string): nat
    requires AllDigits(y)
  {
    if |y| == 2 then (if DigitsValue(y) < 50 then 2000 + DigitsValue(y) else 1900 + DigitsValue(y)) else DigitsValue(y)
  }

  /** Three digit texts joined by slashes parse exactly when they name a real calendar date. */
  lemma ParseDigitDate(m: string, d: string, y: string)
    requires m != [] && d != [] && y != [] && AllDigits(m) && AllDigits(d) && AllDigits(y)
    ensures var date := Date(YearValue(y), DigitsValue(m), DigitsValue(d));
      ParseDate(m + "/" + d + "/" + y) == if IsValidDate(date) then Some(date) else None
  {
    assert '/' !in m && '/' !in d && '/' !in y by {
      assert forall i :: 0 <= i < |m| ==> IsDigit(m[i]);
      assert forall i :: 0 <= i < |d| ==> IsDigit(d[i]);
      assert forall i :: 0 <= i < |y| ==> IsDigit(y[i]);
    }
    SplitDate(m, d, y);
    ParseDigits(m);
    ParseDigits(d);
    ParseDigits(y);
    if |y| == 2 {
      TwoDigitYear(y);
    }
  }

  /** Any valid date with a year of at least 100, written "M/D/Y", reads back as itself. */
  lemma ParseFormatDate(d: Date)
    requires IsValidDate(d) && d.year >= 100
    ensures ParseDate(FormatDate(d)) == Some(d)
  {
    NatToStringValue(d.month);
    NatToStringValue(d.day);
    NatToStringValue(d.year);
    assert |NatToString(d.year)| != 2;
    ParseDigitDate(NatToString(d.month), NatToString(d.day), NatToString(d.year));
  }

  /** Born 4/1/18, seen 8/21/25: 7 years 4 months. */
  lemma AgeExample()
    ensures AgeBetween(Date(2018, 4, 1), Date(2025, 8, 21)) == (7, 4)
    ensures AgeBetween(Date(2018, 4, 15), Date(2025, 4, 14)) == (6, 11)
    ensures AgeBetween(Date(2018, 4, 15), Date(2025, 4, 15)) == (7, 0)
  {
  }

  /** Digit texts naming no calendar date (a 30 February, a thirteenth month) give no age. */
  lemma ImpossibleDate(m: string, d: string, y: string, visit: Option<string>, today: Date)
    requires m != [] && d != [] && y != [] && AllDigits(m) && AllDigits(d) && AllDigits(y)
    requires !IsValidDate(Date(YearValue(y), DigitsValue(m), DigitsValue(d)))
    requires IsValidDate(today)
    ensures CalculateAge(m + "/" + d + "/" + y, visit, today) == None
  {
    ParseDigitDate(m, d, y);
  }

  lemma ImpossibleDateExamples()
    ensures !IsValidDate(Date(2020, 2, 30)) && !IsValidDate(Date(2020, 13, 1))
    ensures IsValidDate(Date(2020, 2, 29)) && !IsValidDate(Date(1900, 2, 29))
  {
  }
}
