/** Log dates as the events carry them: text read by `strptime`, and the week label made from it. */
module LogDates {
  import opened Wrappers
  import opened Texts
  import opened Weeks

  /** %m: one digit or two, from 1 to 12. */
  function MonthOf(t: string): Option<int> {
    if |t| == 1 && '1' <= t[0] <= '9' then Some(ValueOf(t))
    else if |t| == 2 && Digits(t) && 1 <= ValueOf(t) <= 12 then Some(ValueOf(t))
    else None
  }

  /** %d: one digit, two digits, or a space and a digit, from 1 to 31. */
  function DayOf(t: string): Option<int> {
    if |t| == 1 && '1' <= t[0] <= '9' then Some(ValueOf(t))
    else if |t| == 2 && Digits(t) && 1 <= ValueOf(t) <= 31 then Some(ValueOf(t))
    else if |t| == 2 && t[0] == ' ' && '1' <= t[1] <= '9' then Some(ValueOf(t[1..]))
    else None
  }

  /** What follows the year and its dash, split at the next dash. */
  function MonthAndDay(rest: string): Option<(int, int)> {
    var cut := if |rest| >= 2 && rest[1] == '-' then 1 else 2;
    if |rest| <= cut || rest[cut] != '-' then None
    else
      match (MonthOf(rest[..cut]), DayOf(rest[cut + 1..]))
      case (Some(m), Some(d)) => Some((m, d))
      case _ => None
  }

  /** `datetime.strptime(text[:10], "%Y-%m-%d")`; None stands for the ValueError. */
  function ParseDate(text: string): (d: Option<Date>)
    ensures d.Some? ==> IsDate(d.value) && d.value.year <= 9999
  {
    var s := Take(text, 10);
    if |s| < 5 || !Digits(s[..4]) || s[4] != '-' then None
    else
      YearFits(s[..4]);
      match MonthAndDay(s[5..])
      case None => None
      case Some((month, day)) =>
        var d := Date(ValueOf(s[..4]), month, day);
        if IsDate(d) then Some(d) else None
  }

  lemma YearFits(t: string)
    requires |t| == 4 && Digits(t)
    ensures 0 <= ValueOf(t) <= 9999
  {
    assert t[..3][..2] == t[..2] && t[..3][..2][..1] == t[..1] && t[..1][..0] == [];
    assert IsDigit(t[0]) && IsDigit(t[1]) && IsDigit(t[2]) && IsDigit(t[3]);
    assert ValueOf(t[..1]) == t[0] as int - '0' as int;
    assert ValueOf(t[..2]) == 10 * ValueOf(t[..1]) + (t[1] as int - '0' as int);
    assert ValueOf(t[..3]) == 10 * ValueOf(t[..2]) + (t[2] as int - '0' as int);
  }

  /** `date_to_week` */
  function WeekLabel(text: string): string {
    DateToWeek(ParseDate(text))
  }

  // -------------------------------------------------------------- round trip

  /** Four digits. */
  function YearText(y: nat): string {
    if y < 10 then "000" + Decimal(y)
    else if y < 100 then "00" + Decimal(y)
    else if y < 1000 then "0" + Decimal(y)
    else Decimal(y)
  }

  /** `date.isoformat()` */
  function IsoFormat(d: Date): string
    requires IsDate(d)
  {
    YearText(d.year) + "-" + Padded(d.month) + "-" + Padded(d.day)
  }

  lemma {:induction false} LeadingZero(s: string)
    ensures ValueOf("0" + s) == ValueOf(s)
  {
    if s == [] {
      assert ("0" + s)[..0] == [];
    } else {
      var n := |s| - 1;
      LeadingZero(s[..n]);
      assert ("0" + s)[..n + 1] == "0" + s[..n];
    }
  }

  lemma DecimalLength(y: nat)
    ensures y < 10 ==> |Decimal(y)| == 1
    ensures 10 <= y < 100 ==> |Decimal(y)| == 2
    ensures 100 <= y < 1000 ==> |Decimal(y)| == 3
  {
    if 100 <= y < 1000 {
      assert |Decimal(y / 10)| == 2;
    }
  }

  lemma YearTextReadsBack(y: nat)
    requires y <= 9999
    ensures |YearText(y)| == 4 && Digits(YearText(y)) && ValueOf(YearText(y)) == y
  {
    YearNumeral(y);
    DecimalLength(y);
    var t := Decimal(y);
    hide Decimal, ValueOf;
    if y < 10 {
      LeadingZero(t);
      LeadingZero("0" + t);
      LeadingZero("00" + t);
      assert "00" + t == "0" + ("0" + t) && "000" + t == "0" + ("00" + t);
    } else if y < 100 {
      LeadingZero(t);
      LeadingZero("0" + t);
      assert "00" + t == "0" + ("0" + t);
    } else if y < 1000 {
      LeadingZero(t);
    } else {
      FourDigitNumeral(y);
    }
  }

  lemma PaddedReadsBack(n: int)
    requires 1 <= n <= 31
    ensures |Padded(n)| == 2 && Digits(Padded(n)) && ValueOf(Padded(n)) == n
  {
    WeekNumeral(n);
  }

  lemma PartsOfIso(y: string, m: string, a: string, more: string)
    requires |y| == 4 && |m| == 2 && |a| == 2
    ensures
      var iso := y + "-" + m + "-" + a;
      Take(iso + more, 10) == iso && |iso| == 10 && iso[..4] == y && iso[4] == '-' && iso[5..] == m + "-" + a
    ensures
      var rest := m + "-" + a;
      |rest| == 5 && rest[..2] == m && rest[1] == m[1] && rest[2] == '-' && rest[3..] == a
  {
    var iso := y + "-" + m + "-" + a;
    assert iso == y + ("-" + (m + "-" + a));
  }

  /** A date written in its ISO form reads back, whatever text, such as a time of day, follows it. */
  lemma DatesReadBack(d: Date, more: string)
    requires IsDate(d) && d.year <= 9999
    ensures ParseDate(IsoFormat(d) + more) == Some(d)
  {
    hide Decimal, Padded, YearText, ValueOf, Take;
    var y, m, a := YearText(d.year), Padded(d.month), Padded(d.day);
    YearTextReadsBack(d.year);
    PaddedReadsBack(d.month);
    PaddedReadsBack(d.day);
    PartsOfIso(y, m, a, more);
    assert IsDigit(m[1]);
  }

  // ----------------------------------------------------------- what is read

  /** A month in two digits, or in one. */
  predicate IsMonthText(t: string, m: int) {
    1 <= m <= 12 && (t == Padded(m) || (m < 10 && t == Decimal(m)))
  }

  /** A day in two digits, in one, or as a space and a digit. */
  predicate IsDayText(t: string, a: int) {
    1 <= a <= 31 && (t == Padded(a) || (a < 10 && (t == Decimal(a) || t == " " + Decimal(a))))
  }

  lemma TwoDigits(t: string, n: int)
    requires |t| == 2 && 1 <= n <= 31
    ensures t == Padded(n) <==> Digits(t) && ValueOf(t) == n
  {
    hide Padded, ValueOf;
    PaddedReadsBack(n);
    if Digits(t) {
      NumeralsOrder(t, Padded(n));
    }
  }

  lemma OneDigit(t: string, n: int)
    requires |t| == 1 && 1 <= n <= 9
    ensures t == Decimal(n) <==> '1' <= t[0] <= '9' && ValueOf(t) == n
    ensures |Decimal(n)| == 1
  {
    assert t[..0] == [];
  }

  lemma DigitInRange(t: string)
    requires |t| == 1 && '1' <= t[0] <= '9'
    ensures 1 <= ValueOf(t) <= 9
  {
    assert t[..0] == [];
  }

  lemma MonthIff(t: string, m: int)
    ensures MonthOf(t) == Some(m) <==> IsMonthText(t, m)
  {
    hide ValueOf, Padded, Decimal, Digits;
    if 1 <= m <= 12 {
      PaddedReadsBack(m);
      if |t| == 2 {
        TwoDigits(t, m);
      }
    }
    if 1 <= m <= 9 {
      OneDigit("0", m);
      if |t| == 1 {
        OneDigit(t, m);
      }
    }
    if |t| == 1 && '1' <= t[0] <= '9' {
      DigitInRange(t);
    }
  }

  lemma DayIff(t: string, a: int)
    ensures DayOf(t) == Some(a) <==> IsDayText(t, a)
  {
    hide ValueOf, Padded, Decimal;
    if 1 <= a <= 31 {
      PaddedReadsBack(a);
      if |t| == 2 {
        TwoDigits(t, a);
      }
    }
    if 1 <= a <= 9 {
      OneDigit("0", a);
      if |t| == 1 {
        OneDigit(t, a);
      }
      if |t| == 2 {
        OneDigit(t[1..], a);
        assert t == " " + Decimal(a) <==> t[0] == ' ' && t[1..] == Decimal(a);
      }
    }
    if |t| == 1 && '1' <= t[0] <= '9' {
      DigitInRange(t);
    }
    if |t| == 2 && '1' <= t[1] <= '9' {
      DigitInRange(t[1..]);
    }
    if |t| == 2 && t[0] == ' ' {
      assert !IsDigit(t[0]);
    }
  }

  lemma YearIff(t: string, y: nat)
    requires |t| == 4 && y <= 9999
    ensures t == YearText(y) <==> Digits(t) && ValueOf(t) == y
  {
    hide ValueOf, YearText;
    YearTextReadsBack(y);
    if Digits(t) {
      NumeralsOrder(t, YearText(y));
    }
  }

  /** What follows the year's dash is the month, a dash and the day. */
  lemma MonthAndDayIff(rest: string, m: int, a: int)
    ensures MonthAndDay(rest) == Some((m, a)) <==> SplitsAs(rest, m, a)
  {
    hide MonthOf, DayOf, IsMonthText, IsDayText;
    if MonthAndDay(rest) == Some((m, a)) {
      var cut := if |rest| >= 2 && rest[1] == '-' then 1 else 2;
      MonthIff(rest[..cut], m);
      DayIff(rest[cut + 1..], a);
      assert rest == rest[..cut] + "-" + rest[cut + 1..];
    }
    if SplitsAs(rest, m, a) {
      var mt, at :| IsMonthText(mt, m) && IsDayText(at, a) && rest == mt + "-" + at;
      MonthTextLength(mt, m);
      assert rest[..|mt|] == mt && rest[|mt|] == '-' && rest[|mt| + 1..] == at;
      assert |mt| == 2 ==> rest[1] == mt[1];
      MonthIff(mt, m);
      DayIff(at, a);
    }
  }

  ghost predicate SplitsAs(rest: string, m: int, a: int) {
    exists mt: string, at: string :: IsMonthText(mt, m) && IsDayText(at, a) && rest == mt + "-" + at
  }

  lemma MonthTextLength(t: string, m: int)
    requires IsMonthText(t, m)
    ensures |t| == 1 || (|t| == 2 && t[1] != '-')
  {
    PaddedReadsBack(m);
    if m < 10 {
      OneDigit("0", m);
    }
    hide Padded, Decimal, ValueOf;
    if |t| == 2 {
      assert IsDigit(t[1]);
    }
  }

  /** The text's first ten characters are a year in four digits, a dash, a month, a dash and a day. */
  ghost predicate IsDateText(s: string, d: Date) {
    IsDate(d) && d.year <= 9999 && |s| >= 5 && s[..4] == YearText(d.year) && s[4] == '-' && SplitsAs(s[5..], d.month, d.day)
  }

  /** Exactly such texts of existing dates are read, and as that date; every other text is unreadable. */
  lemma ParsesIff(text: string, d: Date)
    ensures ParseDate(text) == Some(d) <==> IsDateText(Take(text, 10), d)
  {
    var s := Take(text, 10);
    hide MonthAndDay, SplitsAs, YearText, IsDate, Take, ValueOf;
    if |s| >= 5 {
      MonthAndDayIff(s[5..], d.month, d.day);
      if Digits(s[..4]) {
        YearFits(s[..4]);
      }
      if 0 <= d.year <= 9999 {
        YearIff(s[..4], d.year);
      }
    }
    DatesHavePositiveYears(d);
  }

  lemma DatesHavePositiveYears(d: Date)
    ensures IsDate(d) ==> d.year >= 1
  {
  }

  /** Both unreadable, or two days of one Monday-to-Sunday week. */
  predicate SameWeek(d: Option<Date>, e: Option<Date>)
    requires (d.Some? ==> IsDate(d.value)) && (e.Some? ==> IsDate(e.value))
  {
    if d.Some? && e.Some? then MondayOf(Ordinal(d.value)) == MondayOf(Ordinal(e.value)) else d == e
  }

  lemma UnknownIsNoWeek(d: Date)
    requires IsDate(d)
    ensures DateToWeek(Some(d)) != DateToWeek(None)
  {
    UnknownSortsLast(d);
    NotBeforeItself(DateToWeek(None));
  }

  /** Whatever the texts, two dates have the same label exactly when both are unreadable or in the same week. */
  lemma LabelsAgreeIff(s: string, t: string)
    ensures WeekLabel(s) == WeekLabel(t) <==> SameWeek(ParseDate(s), ParseDate(t))
  {
    var d, e := ParseDate(s), ParseDate(t);
    hide ParseDate, DateToWeek, MondayOf, Ordinal;
    if d.Some? && e.Some? {
      LabelsIdentifyWeeks(d.value, e.value);
    } else if d.Some? {
      UnknownIsNoWeek(d.value);
    } else if e.Some? {
      UnknownIsNoWeek(e.value);
    }
  }
}
