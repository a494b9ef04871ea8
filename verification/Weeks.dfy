/**
 ISO week labels of log dates: dates as day counts, `isocalendar` and the label
 `YYYY-Www`, by which the reports group and sort.
 */
module Weeks {
  import opened Wrappers
  import opened Texts

  datatype Date = Date(year: int, month: int, day: int)

  // -------------------------------------------------------------------- dates

  predicate Divides(n: int, y: int)
    requires n > 0
  {
    y % n == 0
  }

  /** Multiples of n among 1, ..., y. */
  function Multiples(y: int, n: int): int
    requires n > 0
  {
    y / n
  }

  predicate IsLeap(y: int) {
    Divides(4, y) && (!Divides(100, y) || Divides(400, y))
  }

  function DaysInMonth(y: int, m: int): int {
    if m == 2 then (if IsLeap(y) then 29 else 28)
    else if m == 4 || m == 6 || m == 9 || m == 11 then 30 else 31
  }

  function DaysBeforeYear(y: int): int {
    365 * (y - 1) + Multiples(y - 1, 4) - Multiples(y - 1, 100) + Multiples(y - 1, 400)
  }

  function DaysBeforeMonth(y: int, m: nat): int {
    if m <= 1 then 0 else DaysBeforeMonth(y, m - 1) + DaysInMonth(y, m - 1)
  }

  predicate IsDate(d: Date) {
    1 <= d.year && 1 <= d.month <= 12 && 1 <= d.day <= DaysInMonth(d.year, d.month)
  }

  /** Days counted from 0001-01-01, which is day 1 and a Monday. */
  function Ordinal(d: Date): int
    requires IsDate(d)
  {
    DaysBeforeYear(d.year) + DaysBeforeMonth(d.year, d.month) + d.day
  }

  function Tomorrow(d: Date): Date
    requires IsDate(d)
  {
    if d.day < DaysInMonth(d.year, d.month) then d.(day := d.day + 1)
    else if d.month < 12 then Date(d.year, d.month + 1, 1)
    else Date(d.year + 1, 1, 1)
  }

  lemma NextMultiple(y: int, n: int)
    requires n == 4 || n == 100 || n == 400
    ensures Multiples(y, n) - Multiples(y - 1, n) == if Divides(n, y) then 1 else 0
  {
  }

  lemma CenturyYears(y: int)
    ensures (Divides(400, y) ==> Divides(100, y)) && (Divides(100, y) ==> Divides(4, y))
  {
  }

  lemma YearLength(y: int)
    ensures DaysBeforeYear(y + 1) - DaysBeforeYear(y) == if IsLeap(y) then 366 else 365
  {
    hide Multiples, Divides;
    NextMultiple(y, 4);
    NextMultiple(y, 100);
    NextMultiple(y, 400);
    CenturyYears(y);
  }

  lemma MonthsOfYear(y: int)
    ensures DaysBeforeMonth(y, 12) + 31 == if IsLeap(y) then 366 else 365
    ensures forall m :: 1 <= m <= 12 ==> 0 <= DaysBeforeMonth(y, m) <= DaysBeforeMonth(y, 12) + 31 - DaysInMonth(y, m)
  {
    hide IsLeap;
    assert DaysBeforeMonth(y, 1) == 0;
    assert DaysBeforeMonth(y, 2) == 31;
    assert DaysBeforeMonth(y, 3) == 31 + DaysInMonth(y, 2);
    assert DaysBeforeMonth(y, 4) == 62 + DaysInMonth(y, 2);
    assert DaysBeforeMonth(y, 5) == 92 + DaysInMonth(y, 2);
    assert DaysBeforeMonth(y, 6) == 123 + DaysInMonth(y, 2);
    assert DaysBeforeMonth(y, 7) == 153 + DaysInMonth(y, 2);
    assert DaysBeforeMonth(y, 8) == 184 + DaysInMonth(y, 2);
    assert DaysBeforeMonth(y, 9) == 215 + DaysInMonth(y, 2);
    assert DaysBeforeMonth(y, 10) == 245 + DaysInMonth(y, 2);
    assert DaysBeforeMonth(y, 11) == 276 + DaysInMonth(y, 2);
    assert DaysBeforeMonth(y, 12) == 306 + DaysInMonth(y, 2);
  }

  lemma NextMonth(y: int, m: nat)
    requires 1 <= m
    ensures DaysBeforeMonth(y, m + 1) == DaysBeforeMonth(y, m) + DaysInMonth(y, m)
  {
  }

  lemma NewYear(y: int)
    ensures DaysBeforeYear(y + 1) == DaysBeforeYear(y) + DaysBeforeMonth(y, 12) + 31
  {
    hide IsLeap, DaysBeforeYear, DaysBeforeMonth, DaysInMonth;
    YearLength(y);
    MonthsOfYear(y);
  }

  /** The ordinal counts days: tomorrow is one more. */
  lemma OrdinalCounts(d: Date)
    requires IsDate(d)
    ensures IsDate(Tomorrow(d)) && Ordinal(Tomorrow(d)) == Ordinal(d) + 1
    ensures Ordinal(Date(1, 1, 1)) == 1
  {
    assert DaysBeforeMonth(d.year + 1, 1) == 0 == DaysBeforeMonth(1, 1);
    hide IsLeap, DaysBeforeYear, DaysBeforeMonth;
    YearOne();
    if d.month < 12 {
      NextMonth(d.year, d.month);
    } else {
      NewYear(d.year);
    }
  }

  lemma YearOne()
    ensures DaysBeforeYear(1) == 0
  {
  }

  lemma WithinYear(d: Date)
    requires IsDate(d)
    ensures DaysBeforeYear(d.year) < Ordinal(d) <= DaysBeforeYear(d.year + 1)
  {
    YearLength(d.year);
    MonthsOfYear(d.year);
    hide IsLeap, DaysBeforeYear;
  }

  // -------------------------------------------------------------------- weeks

  /** Monday is 0. */
  function Weekday(ordinal: int): int {
    (ordinal + 6) % 7
  }

  function MondayOf(ordinal: int): int {
    ordinal - Weekday(ordinal)
  }

  /** The Monday of the week that holds the year's first Thursday. */
  function WeekOneMonday(y: int): int {
    var first := DaysBeforeYear(y) + 1;
    first - Weekday(first) + if Weekday(first) > 3 then 7 else 0
  }

  /** divmod(today - monday, 7), first part. */
  function WeeksSince(monday: int, today: int): int {
    (today - monday) / 7
  }

  datatype IsoWeek = IsoWeek(year: int, week: int)

  /** `isocalendar` */
  function IsoCalendar(d: Date): IsoWeek
    requires IsDate(d)
  {
    var today := Ordinal(d);
    var week := WeeksSince(WeekOneMonday(d.year), today);
    if week < 0 then IsoWeek(d.year - 1, WeeksSince(WeekOneMonday(d.year - 1), today) + 1)
    else if week >= 52 && today >= WeekOneMonday(d.year + 1) then IsoWeek(d.year + 1, 1)
    else IsoWeek(d.year, week + 1)
  }

  lemma WeekOneIsMonday(y: int)
    ensures Weekday(WeekOneMonday(y)) == 0
    ensures -2 <= WeekOneMonday(y) - DaysBeforeYear(y) <= 4
  {
    hide DaysBeforeYear;
    FirstWeek(DaysBeforeYear(y) + 1);
  }

  lemma FirstWeek(first: int)
    ensures Weekday(MondayOf(first)) == 0 == Weekday(MondayOf(first) + 7)
    ensures 0 <= Weekday(first) <= 6
  {
    var k := (first + 6) / 7;
    assert first + 6 - Weekday(first) == 7 * k;
  }

  lemma IsoYearLength(y: int)
    ensures WeekOneMonday(y + 1) - WeekOneMonday(y) == 364 || WeekOneMonday(y + 1) - WeekOneMonday(y) == 371
  {
    YearLength(y);
    WeekOneIsMonday(y);
    WeekOneIsMonday(y + 1);
    hide DaysBeforeYear, WeekOneMonday, IsLeap;
    MultipleOfSeven(WeekOneMonday(y), WeekOneMonday(y + 1));
  }

  lemma MultipleOfSeven(a: int, b: int)
    requires Weekday(a) == 0 == Weekday(b)
    ensures (b - a) % 7 == 0
  {
  }

  /** A date lies in the ISO year before its own, in its own, or in the one after. */
  lemma NearIsoYears(d: Date)
    requires IsDate(d)
    ensures
      var y, today := d.year, Ordinal(d);
      && WeekOneMonday(y - 1) <= today < WeekOneMonday(y + 2) && today < WeekOneMonday(y + 1) + 7
      && WeekOneMonday(y - 1) + 364 <= WeekOneMonday(y) <= WeekOneMonday(y - 1) + 371
      && WeekOneMonday(y) + 364 <= WeekOneMonday(y + 1) <= WeekOneMonday(y) + 371
      && WeekOneMonday(y + 1) + 364 <= WeekOneMonday(y + 2) <= WeekOneMonday(y + 1) + 371
  {
    hide DaysBeforeYear, WeekOneMonday, Ordinal, IsLeap;
    WithinYear(d);
    YearLength(d.year - 1);
    YearLength(d.year);
    YearLength(d.year + 1);
    WeekOneIsMonday(d.year - 1);
    WeekOneIsMonday(d.year + 1);
    WeekOneIsMonday(d.year + 2);
    IsoYearLength(d.year - 1);
    IsoYearLength(d.year);
    IsoYearLength(d.year + 1);
  }

  lemma WeekInYear(y: int, today: int)
    requires WeekOneMonday(y) <= today < WeekOneMonday(y + 1)
    ensures
      var week := WeeksSince(WeekOneMonday(y), today) + 1;
      && 1 <= week <= 53
      && MondayOf(today) == WeekOneMonday(y) + 7 * (week - 1)
      && WeekOneMonday(y) <= MondayOf(today) < WeekOneMonday(y + 1)
  {
    hide WeekOneMonday, WeeksSince, MondayOf, Weekday;
    WeekOneIsMonday(y);
    IsoYearLength(y);
    WeekFrom(WeekOneMonday(y), today);
  }

  /** The year chosen is the one whose weeks contain the date. */
  lemma IsoCalendarChooses(d: Date)
    requires IsDate(d)
    ensures
      var w, today := IsoCalendar(d), Ordinal(d);
      && -1 <= w.year - d.year <= 1
      && WeekOneMonday(w.year) <= today < WeekOneMonday(w.year + 1)
      && w.week == WeeksSince(WeekOneMonday(w.year), today) + 1
  {
    hide WeekOneMonday, Ordinal, MondayOf, Weekday;
    NearIsoYears(d);
  }

  /** The ISO year is the one whose weeks contain the date, and the week counts Mondays from its first. */
  lemma IsoCalendarIsWeek(d: Date)
    requires IsDate(d)
    ensures
      var w := IsoCalendar(d);
      && 1 <= w.week <= 53 && -1 <= w.year - d.year <= 1
      && MondayOf(Ordinal(d)) == WeekOneMonday(w.year) + 7 * (w.week - 1)
      && WeekOneMonday(w.year) <= MondayOf(Ordinal(d)) < WeekOneMonday(w.year + 1)
  {
    hide IsoCalendar, WeekOneMonday, Ordinal, MondayOf, WeeksSince;
    IsoCalendarChooses(d);
    WeekInYear(IsoCalendar(d).year, Ordinal(d));
  }

  /** The ISO year is the calendar year of the week's Thursday, and the week counts that year's Thursdays. */
  lemma IsoWeekIsThursdays(d: Date)
    requires IsDate(d)
    ensures
      var w, thursday := IsoCalendar(d), MondayOf(Ordinal(d)) + 3;
      && DaysBeforeYear(w.year) < thursday <= DaysBeforeYear(w.year + 1)
      && w.week == (thursday - DaysBeforeYear(w.year) - 1) / 7 + 1
  {
    hide IsoCalendar, Ordinal, MondayOf, Weekday, DaysBeforeYear, WeekOneMonday;
    var w := IsoCalendar(d);
    IsoCalendarIsWeek(d);
    WeekOneIsMonday(w.year);
    WeekOneIsMonday(w.year + 1);
    IsoYearLength(w.year);
    WholeWeeks(WeekOneMonday(w.year + 1) - WeekOneMonday(w.year), w.week - 1);
  }

  lemma WholeWeeks(days: int, weeks: int)
    requires (days == 364 || days == 371) && 7 * weeks < days
    ensures 7 * weeks <= days - 7
  {
  }

  lemma WeekFrom(monday: int, today: int)
    requires Weekday(monday) == 0
    ensures MondayOf(today) == monday + 7 * WeeksSince(monday, today) <= today < MondayOf(today) + 7
    ensures monday <= today <==> monday <= MondayOf(today)
  {
    var k := WeeksSince(monday, today);
    var rest := (today - monday) % 7;
    assert today - monday == 7 * k + rest;
    var j := (monday + 6) / 7;
    assert monday + 6 == 7 * j;
    assert today + 6 == 7 * (j + k) + rest;
  }

  lemma {:induction false} WeekOneGrows(y: int, z: int)
    requires y <= z
    ensures WeekOneMonday(y) <= WeekOneMonday(z) && (y < z ==> WeekOneMonday(y) < WeekOneMonday(z))
    decreases z - y
  {
    if y == z {
    } else {
      WeekOneGrows(y, z - 1);
      IsoYearLength(z - 1);
      assert z - 1 + 1 == z;
    }
  }

  predicate Earlier(v: IsoWeek, w: IsoWeek) {
    v.year < w.year || (v.year == w.year && v.week < w.week)
  }

  /** `m` is the Monday of week `w`. */
  predicate IsMondayOf(m: int, w: IsoWeek) {
    m == WeekOneMonday(w.year) + 7 * (w.week - 1) && WeekOneMonday(w.year) <= m < WeekOneMonday(w.year + 1)
  }

  lemma WeeksFollowMondays(v: IsoWeek, w: IsoWeek, m: int, n: int)
    requires IsMondayOf(m, v) && IsMondayOf(n, w)
    ensures v == w <==> m == n
    ensures Earlier(v, w) <==> m < n
  {
    hide WeekOneMonday;
    if v.year < w.year {
      WeekOneGrows(v.year + 1, w.year);
    } else if w.year < v.year {
      WeekOneGrows(w.year + 1, v.year);
    }
  }

  /** ISO weeks order as their Mondays do, and are equal exactly when the dates share a Monday-to-Sunday week. */
  lemma IsoWeeksFollowMondays(d: Date, e: Date)
    requires IsDate(d) && IsDate(e)
    ensures IsoCalendar(d) == IsoCalendar(e) <==> MondayOf(Ordinal(d)) == MondayOf(Ordinal(e))
    ensures Earlier(IsoCalendar(d), IsoCalendar(e)) <==> MondayOf(Ordinal(d)) < MondayOf(Ordinal(e))
  {
    hide IsoCalendar, WeekOneMonday, Ordinal, MondayOf, IsDate, Earlier;
    IsoCalendarIsWeek(d);
    IsoCalendarIsWeek(e);
    WeeksFollowMondays(IsoCalendar(d), IsoCalendar(e), MondayOf(Ordinal(d)), MondayOf(Ordinal(e)));
  }

  // ------------------------------------------------------------------- labels

  /** Two digits at least. */
  function Padded(n: nat): string {
    if n < 10 then "0" + Decimal(n) else Decimal(n)
  }

  function LabelOf(w: IsoWeek): string
    requires 0 <= w.year && 0 <= w.week
  {
    Decimal(w.year) + "-W" + Padded(w.week)
  }

  /** `date_to_week`, after parsing; a text that is no date has the label "unknown". */
  function DateToWeek(d: Option<Date>): string
    requires d.Some? ==> IsDate(d.value)
  {
    if d.None? then "unknown"
    else
      IsoYearIsPositive(d.value);
      LabelOf(IsoCalendar(d.value))
  }

  lemma IsoYearIsPositive(d: Date)
    requires IsDate(d)
    ensures IsoCalendar(d).year >= 1 && 1 <= IsoCalendar(d).week <= 53
  {
    IsoCalendarIsWeek(d);
    WithinYear(d);
    YearOne();
    assert WeekOneMonday(1) == 1 by {
      assert DaysBeforeYear(1) == 0;
    }
    hide IsoCalendar, Ordinal, DaysBeforeYear, WeekOneMonday;
  }

  /** ORDER BY on text: character by character. */
  predicate TextBefore(a: string, b: string) {
    if a == [] || b == [] then a == [] && b != []
    else a[0] < b[0] || (a[0] == b[0] && TextBefore(a[1..], b[1..]))
  }

  lemma {:induction false} TextBeforeJoin(a: string, b: string, c: string, d: string)
    requires |a| == |c|
    ensures TextBefore(a + b, c + d) <==> TextBefore(a, c) || (a == c && TextBefore(b, d))
  {
    if a == [] {
      assert a + b == b && c + d == d;
    } else {
      TextBeforeJoin(a[1..], b, c[1..], d);
      assert (a + b)[1..] == a[1..] + b && (c + d)[1..] == c[1..] + d;
      assert a == c <==> a[0] == c[0] && a[1..] == c[1..];
    }
  }

  predicate Digits(s: string) {
    forall i :: 0 <= i < |s| ==> IsDigit(s[i])
  }

  /** Numerals of equal length order as their values. */
  lemma {:induction false} NumeralsOrder(a: string, b: string)
    requires |a| == |b| && Digits(a) && Digits(b)
    ensures TextBefore(a, b) <==> ValueOf(a) < ValueOf(b)
    ensures a == b <==> ValueOf(a) == ValueOf(b)
  {
    if a == [] {
    } else {
      var n := |a| - 1;
      NumeralsOrder(a[..n], b[..n]);
      TextBeforeJoin(a[..n], [a[n]], b[..n], [b[n]]);
      assert a == a[..n] + [a[n]] && b == b[..n] + [b[n]];
      assert IsDigit(a[n]) && IsDigit(b[n]);
    }
  }

  lemma YearNumeral(y: nat)
    ensures Digits(Decimal(y)) && ValueOf(Decimal(y)) == y && Decimal(y) != []
  {
    DecimalReadsBack(y);
  }

  lemma WeekNumeral(w: int)
    requires 1 <= w <= 53
    ensures |Padded(w)| == 2 && Digits(Padded(w)) && ValueOf(Padded(w)) == w
  {
    DecimalReadsBack(w);
    if w < 10 {
      assert Padded(w)[..1] == "0" && "0"[..0] == [];
    }
  }

  lemma {:induction false} NotBeforeItself(s: string)
    ensures !TextBefore(s, s)
  {
    if s == [] {
    } else {
      NotBeforeItself(s[1..]);
    }
  }

  predicate IsWeek(w: IsoWeek) {
    w.year >= 1 && 1 <= w.week <= 53
  }

  lemma LabelsAreInjective(v: IsoWeek, w: IsoWeek)
    requires IsWeek(v) && IsWeek(w)
    ensures LabelOf(v) == LabelOf(w) <==> v == w
  {
    if LabelOf(v) == LabelOf(w) {
      YearNumeral(v.year);
      YearNumeral(w.year);
      WeekNumeral(v.week);
      WeekNumeral(w.week);
      hide Decimal, Padded, ValueOf;
      var l := LabelOf(v);
      assert |l| == |Decimal(v.year)| + 4 == |Decimal(w.year)| + 4;
      assert Decimal(v.year) == l[..|l| - 4] == Decimal(w.year);
      assert Padded(v.week) == l[|l| - 2..] == Padded(w.week);
    }
  }

  /** Years of equally many digits: labels sort as weeks do. */
  lemma EqualDigitsOrder(v: IsoWeek, w: IsoWeek)
    requires IsWeek(v) && IsWeek(w) && |Decimal(v.year)| == |Decimal(w.year)|
    ensures TextBefore(LabelOf(v), LabelOf(w)) <==> Earlier(v, w)
  {
    YearNumeral(v.year);
    YearNumeral(w.year);
    WeekNumeral(v.week);
    WeekNumeral(w.week);
    hide Decimal, Padded, TextBefore, ValueOf;
    var a, b, c, d := Decimal(v.year), Padded(v.week), Decimal(w.year), Padded(w.week);
    NumeralsOrder(a, c);
    NumeralsOrder(b, d);
    assert LabelOf(v) == a + ("-W" + b) && LabelOf(w) == c + ("-W" + d);
    TextBeforeJoin(a, "-W" + b, c, "-W" + d);
    TextBeforeJoin("-W", b, "-W", d);
    NotBeforeItself("-W");
  }

  /** The number made of the first digits of `z`, as many as `y` has. */
  function LeadingDigits(z: nat, y: nat): int
    requires |Decimal(y)| <= |Decimal(z)|
  {
    ValueOf(Decimal(z)[..|Decimal(y)|])
  }

  /** After numerals of equal length a dash comes before a digit. */
  lemma NumeralThenText(a: string, b: string, p: string, d: string)
    requires |a| == |p| && Digits(a) && Digits(p) && b != [] && d != [] && b[0] == '-' && IsDigit(d[0])
    ensures TextBefore(a + b, p + d) <==> ValueOf(a) <= ValueOf(p)
    ensures TextBefore(p + d, a + b) <==> ValueOf(a) > ValueOf(p)
  {
    hide ValueOf, TextBefore, Digits;
    NumeralsOrder(a, p);
    NumeralsOrder(p, a);
    DashBeforeDigit(b, d);
    TextBeforeJoin(a, b, p, d);
    TextBeforeJoin(p, d, a, b);
  }

  /** A year of fewer digits sorts first exactly if it does not exceed the other's leading digits. */
  lemma FewerDigitsOrder(v: IsoWeek, w: IsoWeek)
    requires IsWeek(v) && IsWeek(w) && |Decimal(v.year)| < |Decimal(w.year)|
    ensures TextBefore(LabelOf(v), LabelOf(w)) <==> v.year <= LeadingDigits(w.year, v.year)
    ensures TextBefore(LabelOf(w), LabelOf(v)) <==> v.year > LeadingDigits(w.year, v.year)
  {
    hide Decimal, Padded, ValueOf, TextBefore;
    YearNumeral(v.year);
    YearNumeral(w.year);
    var a, c := Decimal(v.year), Decimal(w.year);
    var p, q := c[..|a|], c[|a|..];
    var b, d := "-W" + Padded(v.week), q + ("-W" + Padded(w.week));
    assert Digits(p) && IsDigit(q[0]);
    assert b[0] == '-' && d[0] == q[0];
    assert c == p + q;
    assert LabelOf(v) == a + b && LabelOf(w) == p + d;
    NumeralThenText(a, b, p, d);
  }

  lemma DashBeforeDigit(a: string, b: string)
    requires a != [] && b != [] && a[0] == '-' && IsDigit(b[0])
    ensures TextBefore(a, b) && !TextBefore(b, a)
  {
  }

  lemma {:induction false} LongerNumerals(y: nat, z: nat)
    requires y <= z
    ensures |Decimal(y)| <= |Decimal(z)|
  {
    if y < 10 {
    } else {
      LongerNumerals(y / 10, z / 10);
    }
  }

  /** The later ISO year does not begin with smaller digits than a shorter earlier one. */
  predicate YearsSort(y: nat, z: nat) {
    if |Decimal(y)| == |Decimal(z)| then true
    else if |Decimal(y)| < |Decimal(z)| then y <= LeadingDigits(z, y)
    else z <= LeadingDigits(y, z)
  }

  /** Labels are equal exactly when the dates share a Monday-to-Sunday week. */
  lemma LabelsIdentifyWeeks(d: Date, e: Date)
    requires IsDate(d) && IsDate(e)
    ensures DateToWeek(Some(d)) == DateToWeek(Some(e)) <==> MondayOf(Ordinal(d)) == MondayOf(Ordinal(e))
  {
    IsoYearIsPositive(d);
    IsoYearIsPositive(e);
    hide IsoCalendar, WeekOneMonday, Ordinal, TextBefore, LabelOf;
    LabelsAreInjective(IsoCalendar(d), IsoCalendar(e));
    IsoWeeksFollowMondays(d, e);
  }

  /** Labels of two dates sort as text in the order of their weeks if and only if their ISO years sort. */
  lemma LabelsSortIff(d: Date, e: Date)
    requires IsDate(d) && IsDate(e)
    ensures
      (TextBefore(DateToWeek(Some(d)), DateToWeek(Some(e))) <==> MondayOf(Ordinal(d)) < MondayOf(Ordinal(e)))
        <==> YearsSort(IsoCalendar(d).year, IsoCalendar(e).year)
  {
    IsoYearIsPositive(d);
    IsoYearIsPositive(e);
    var v, w := IsoCalendar(d), IsoCalendar(e);
    IsoWeeksFollowMondays(d, e);
    hide IsoCalendar, WeekOneMonday, Ordinal, TextBefore, LabelOf, Decimal, LeadingDigits, MondayOf;
    if |Decimal(v.year)| == |Decimal(w.year)| {
      EqualDigitsOrder(v, w);
    } else if |Decimal(v.year)| < |Decimal(w.year)| {
      FewerDigitsOrder(v, w);
      if w.year <= v.year {
        LongerNumerals(w.year, v.year);
      }
    } else {
      FewerDigitsOrder(w, v);
      if v.year <= w.year {
        LongerNumerals(v.year, w.year);
      }
    }
  }

  predicate FourDigits(d: Date) {
    IsDate(d) && 1000 <= d.year <= 9999
  }

  /** A four-digit date has a four-digit ISO year. */
  lemma IsoYearHasFourDigits(d: Date)
    requires FourDigits(d)
    ensures 1000 <= IsoCalendar(d).year <= 9999
  {
    hide IsoCalendar, WeekOneMonday, DaysBeforeYear, Ordinal;
    WithinYear(d);
    IsoCalendarChooses(d);
    MillenniumBounds();
  }

  lemma MillenniumBounds()
    ensures WeekOneMonday(1000) == 364876 && DaysBeforeYear(1000) == 364877
    ensures WeekOneMonday(10000) == 3652062 && DaysBeforeYear(10000) == 3652059
  {
  }

  lemma FourDigitNumeral(y: nat)
    requires 1000 <= y <= 9999
    ensures |Decimal(y)| == 4
  {
    assert |Decimal(y / 1000)| == 1;
    assert y / 10 / 10 / 10 == y / 1000;
    assert |Decimal(y / 10 / 10)| == 2;
  }

  /** In the years 1000 to 9999 labels sort as text in the order of their weeks. */
  lemma LabelsAreChronological(d: Date, e: Date)
    requires FourDigits(d) && FourDigits(e)
    ensures TextBefore(DateToWeek(Some(d)), DateToWeek(Some(e))) <==> MondayOf(Ordinal(d)) < MondayOf(Ordinal(e))
  {
    IsoYearHasFourDigits(d);
    IsoYearHasFourDigits(e);
    FourDigitNumeral(IsoCalendar(d).year);
    FourDigitNumeral(IsoCalendar(e).year);
    hide IsoCalendar, WeekOneMonday, Ordinal, TextBefore, LabelOf, Decimal, MondayOf;
    LabelsSortIff(d, e);
  }

  /** The week of 5 June 999 sorts after that of 5 June 1000. */
  lemma OldYearsDoNotSort()
    ensures
      var d, e := Date(999, 6, 5), Date(1000, 6, 5);
      MondayOf(Ordinal(d)) < MondayOf(Ordinal(e)) && TextBefore(DateToWeek(Some(e)), DateToWeek(Some(d)))
  {
    assert DaysBeforeMonth(999, 6) == 151 && DaysBeforeMonth(1000, 6) == 151;
    var d, e := Date(999, 6, 5), Date(1000, 6, 5);
    assert IsoCalendar(d).year == 999 && IsoCalendar(e).year == 1000;
    IsoYearIsPositive(d);
    IsoYearIsPositive(e);
    NumeralOf999();
    FewerDigitsOrder(IsoCalendar(d), IsoCalendar(e));
    hide TextBefore, LabelOf, Decimal, IsoCalendar;
  }

  lemma NumeralOf999()
    ensures |Decimal(999)| == 3 && |Decimal(1000)| == 4 && LeadingDigits(1000, 999) == 100
  {
    assert Decimal(99) == "99" && Decimal(999) == "999" && Decimal(100) == "100" && Decimal(1000) == "1000";
    assert Decimal(1000)[..3] == Decimal(100);
    DecimalReadsBack(100);
  }

  /** Entries without a readable date sort after every week. */
  lemma UnknownSortsLast(d: Date)
    requires IsDate(d)
    ensures TextBefore(DateToWeek(Some(d)), DateToWeek(None))
  {
    IsoYearIsPositive(d);
    var w := IsoCalendar(d);
    YearNumeral(w.year);
    var text := DateToWeek(Some(d));
    assert text[0] == Decimal(w.year)[0];
    assert IsDigit(text[0]) && "unknown"[0] == 'u';
    hide Decimal, LabelOf, IsoCalendar;
  }

  /** A label is the ISO year's numeral, "-W" and the week in two digits. */
  lemma LabelShows(d: Date)
    requires IsDate(d)
    ensures
      var text, w := DateToWeek(Some(d)), IsoCalendar(d);
      && |text| > 4 && Digits(text[..|text| - 4]) && ValueOf(text[..|text| - 4]) == w.year
      && text[|text| - 4..|text| - 2] == "-W"
      && Digits(text[|text| - 2..]) && ValueOf(text[|text| - 2..]) == w.week
  {
    IsoYearIsPositive(d);
    var w := IsoCalendar(d);
    YearNumeral(w.year);
    WeekNumeral(w.week);
    hide Decimal, Padded, ValueOf, IsoCalendar;
    var text := LabelOf(w);
    assert text == Decimal(w.year) + "-W" + Padded(w.week);
    assert text[..|text| - 4] == Decimal(w.year) && text[|text| - 2..] == Padded(w.week);
  }

  /** Known days: the first of each month of 2026, the leap day of 2000, and the missing ones of 1900 and 2026. */
  lemma KnownDays()
    ensures Ordinal(Date(2026, 1, 1)) == 739617 && Ordinal(Date(2026, 2, 1)) == 739648 && Ordinal(Date(2026, 3, 1)) == 739676
    ensures Ordinal(Date(2026, 4, 1)) == 739707 && Ordinal(Date(2026, 5, 1)) == 739737 && Ordinal(Date(2026, 6, 1)) == 739768
    ensures Ordinal(Date(2026, 7, 1)) == 739798 && Ordinal(Date(2026, 8, 1)) == 739829 && Ordinal(Date(2026, 9, 1)) == 739860
    ensures Ordinal(Date(2026, 10, 1)) == 739890 && Ordinal(Date(2026, 11, 1)) == 739921 && Ordinal(Date(2026, 12, 1)) == 739951
    ensures IsDate(Date(2000, 2, 29)) && !IsDate(Date(1900, 2, 29)) && !IsDate(Date(2026, 2, 29)) && !IsDate(Date(2024, 2, 30))
    ensures Ordinal(Date(2000, 2, 29)) == 730179 && Ordinal(Date(1970, 1, 1)) == 719163
  {
    assert DaysBeforeYear(2026) == 739616 && DaysBeforeYear(2000) == 730119 && DaysBeforeYear(1970) == 719162;
    assert !IsLeap(2026) && IsLeap(2000) && !IsLeap(1900) && IsLeap(2024);
    var y := 2026;
    assert DaysBeforeMonth(y, 1) == 0 && DaysBeforeMonth(y, 2) == 31 && DaysBeforeMonth(y, 3) == 59;
    assert DaysBeforeMonth(y, 4) == 90 && DaysBeforeMonth(y, 5) == 120 && DaysBeforeMonth(y, 6) == 151;
    assert DaysBeforeMonth(y, 7) == 181 && DaysBeforeMonth(y, 8) == 212 && DaysBeforeMonth(y, 9) == 243;
    assert DaysBeforeMonth(y, 10) == 273 && DaysBeforeMonth(y, 11) == 304 && DaysBeforeMonth(y, 12) == 334;
    assert DaysBeforeMonth(2000, 2) == 31 && DaysBeforeMonth(1970, 1) == 0;
    hide DaysBeforeYear, DaysBeforeMonth, IsLeap;
  }

  // ------------------------------------------------------------- the series

  /** The groups of a forecast, as ORDER BY log_week returns their labels; None is the group of unreadable dates. */
  predicate IsSeries(weeks: seq<Option<Date>>) {
    && (forall i :: 0 <= i < |weeks| && weeks[i].Some? ==> IsDate(weeks[i].value))
    && forall i :: 0 < i < |weeks| ==> TextBefore(LabelAt(weeks, i - 1), LabelAt(weeks, i))
  }

  function LabelAt(weeks: seq<Option<Date>>, i: nat): string
    requires i < |weeks| && forall i :: 0 <= i < |weeks| && weeks[i].Some? ==> IsDate(weeks[i].value)
  {
    DateToWeek(weeks[i])
  }

  type Dates = dates: seq<Date> | forall i :: 0 <= i < |dates| ==> IsDate(dates[i])

  /** The weeks before the first group without a readable date. */
  function Readable(weeks: seq<Option<Date>>): (dates: Dates)
    requires forall i :: 0 <= i < |weeks| && weeks[i].Some? ==> IsDate(weeks[i].value)
    ensures |dates| <= |weeks| && forall i :: 0 <= i < |dates| ==> weeks[i] == Some(dates[i])
    ensures |dates| < |weeks| ==> weeks[|dates|].None?
  {
    if weeks == [] || weeks[0].None? then []
    else
      var rest := Readable(weeks[1..]);
      assert forall i :: 0 < i < |weeks| ==> weeks[1..][i - 1] == weeks[i];
      [weeks[0].value] + rest
  }

  lemma {:induction false} NotBothBefore(a: string, b: string)
    requires TextBefore(a, b)
    ensures !TextBefore(b, a)
  {
    if a != [] && a[0] == b[0] {
      NotBothBefore(a[1..], b[1..]);
    }
  }

  /** Only the last group of a series can be that of the unreadable dates. */
  lemma UnknownComesLast(weeks: seq<Option<Date>>)
    requires IsSeries(weeks)
    ensures |weeks| <= |Readable(weeks)| + 1
  {
    var n := |Readable(weeks)|;
    if n + 1 < |weeks| {
      hide DateToWeek, TextBefore, Readable;
      assert TextBefore(LabelAt(weeks, n), LabelAt(weeks, n + 1));
      if weeks[n + 1].None? {
        NotBeforeItself(DateToWeek(None));
      } else {
        UnknownSortsLast(weeks[n + 1].value);
        NotBothBefore(DateToWeek(weeks[n + 1]), DateToWeek(None));
      }
    }
  }

  function MondayAt(dates: Dates, i: nat): int
    requires i < |dates|
  {
    MondayOf(Ordinal(dates[i]))
  }

  /** From each week to the next the ISO years sort as numerals. */
  predicate YearsAscend(dates: Dates) {
    forall i :: 0 < i < |dates| ==> AscendAt(dates, i)
  }

  predicate AscendAt(dates: Dates, i: nat)
    requires 0 < i < |dates|
  {
    IsoYearIsPositive(dates[i - 1]);
    IsoYearIsPositive(dates[i]);
    YearsSort(IsoCalendar(dates[i - 1]).year, IsoCalendar(dates[i]).year)
  }

  /** Later in the series is later in time, by a week an index at least and by whole weeks. */
  predicate Chronological(dates: Dates) {
    forall i: nat, j: nat {:trigger MondayAt(dates, i), MondayAt(dates, j)} :: i < j < |dates| ==>
      && MondayAt(dates, i) + 7 * (j - i) <= MondayAt(dates, j)
      && (MondayAt(dates, j) - MondayAt(dates, i)) % 7 == 0
  }

  lemma MondaysAreSeven(m: int, n: int, today: int, other: int)
    requires m == MondayOf(today) && n == MondayOf(other)
    ensures (n - m) % 7 == 0 && (m < n ==> m + 7 <= n)
  {
    FirstWeek(today);
    FirstWeek(other);
    MultipleOfSeven(m, n);
  }

  /** Each Monday is before the next. */
  predicate Rises(dates: Dates) {
    forall i :: 0 < i < |dates| ==> RisesAt(dates, i)
  }

  predicate RisesAt(dates: Dates, i: nat)
    requires 0 < i < |dates|
  {
    MondayAt(dates, i - 1) < MondayAt(dates, i)
  }

  lemma AscendIff(weeks: seq<Option<Date>>, i: nat)
    requires IsSeries(weeks) && 0 < i < |Readable(weeks)|
    ensures AscendAt(Readable(weeks), i) <==> RisesAt(Readable(weeks), i)
  {
    hide DateToWeek, TextBefore, Readable, MondayOf, Ordinal, YearsSort;
    var dates := Readable(weeks);
    assert TextBefore(LabelAt(weeks, i - 1), LabelAt(weeks, i));
    LabelsSortIff(dates[i - 1], dates[i]);
  }

  lemma WholeWeek(dates: Dates, i: nat)
    requires 0 < i < |dates| && RisesAt(dates, i)
    ensures MondayAt(dates, i - 1) + 7 <= MondayAt(dates, i)
    ensures (MondayAt(dates, i) - MondayAt(dates, i - 1)) % 7 == 0
  {
    hide MondayOf, Ordinal;
    MondaysAreSeven(MondayAt(dates, i - 1), MondayAt(dates, i), Ordinal(dates[i - 1]), Ordinal(dates[i]));
  }

  lemma AddSevens(a: int, b: int, c: int)
    requires (b - a) % 7 == 0 && (c - b) % 7 == 0
    ensures (c - a) % 7 == 0
  {
  }

  lemma {:induction false} WeeksApart(dates: Dates, i: nat, j: nat)
    requires Rises(dates) && i < j < |dates|
    ensures MondayAt(dates, i) + 7 * (j - i) <= MondayAt(dates, j)
    ensures (MondayAt(dates, j) - MondayAt(dates, i)) % 7 == 0
  {
    hide MondayAt, RisesAt;
    WholeWeek(dates, j);
    if i + 1 == j {
    } else {
      WeeksApart(dates, i, j - 1);
      AddSevens(MondayAt(dates, i), MondayAt(dates, j - 1), MondayAt(dates, j));
    }
  }

  lemma ChronologicalIffRises(dates: Dates)
    ensures Chronological(dates) <==> Rises(dates)
  {
    hide MondayAt;
    if Rises(dates) {
      forall i: nat, j: nat | i < j < |dates|
        ensures MondayAt(dates, i) + 7 * (j - i) <= MondayAt(dates, j) && (MondayAt(dates, j) - MondayAt(dates, i)) % 7 == 0
      {
        WeeksApart(dates, i, j);
      }
    }
    if Chronological(dates) {
      forall i | 0 < i < |dates| ensures RisesAt(dates, i) {
        assert MondayAt(dates, i - 1) + 7 <= MondayAt(dates, i);
      }
    }
  }

  /** A series runs forward in time if and only if its ISO years sort; unreadable dates come last in any case. */
  lemma SeriesIsChronologicalIff(weeks: seq<Option<Date>>)
    requires IsSeries(weeks)
    ensures Chronological(Readable(weeks)) <==> YearsAscend(Readable(weeks))
    ensures |weeks| <= |Readable(weeks)| + 1
  {
    var dates := Readable(weeks);
    hide IsSeries, MondayAt, Readable, AscendAt, RisesAt, Chronological;
    UnknownComesLast(weeks);
    ChronologicalIffRises(dates);
    forall i | 0 < i < |dates| ensures AscendAt(dates, i) <==> RisesAt(dates, i) {
      AscendIff(weeks, i);
    }
  }

  /** In the years 1000 to 9999 every series runs forward in time. */
  lemma FourDigitSeries(weeks: seq<Option<Date>>)
    requires IsSeries(weeks) && forall i :: 0 <= i < |weeks| && weeks[i].Some? ==> FourDigits(weeks[i].value)
    ensures Chronological(Readable(weeks))
  {
    hide MondayAt, Readable, Decimal, IsoCalendar, TextBefore, DateToWeek;
    var dates := Readable(weeks);
    forall i | 0 < i < |dates| ensures AscendAt(dates, i) {
      assert weeks[i - 1] == Some(dates[i - 1]) && weeks[i] == Some(dates[i]);
      IsoYearHasFourDigits(dates[i - 1]);
      IsoYearHasFourDigits(dates[i]);
      FourDigitNumeral(IsoCalendar(dates[i - 1]).year);
      FourDigitNumeral(IsoCalendar(dates[i]).year);
    }
    SeriesIsChronologicalIff(weeks);
  }

  /** The Monday is that of some week of the series. */
  predicate Occurs(dates: Dates, monday: int) {
    exists i: nat :: i < |dates| && MondayAt(dates, i) == monday
  }

  /** No week between the first and the last is without an entry. */
  ghost predicate NoWeekMissing(dates: Dates)
    requires dates != []
  {
    forall k: nat :: MondayAt(dates, 0) + 7 * k <= MondayAt(dates, |dates| - 1) ==> Occurs(dates, MondayAt(dates, 0) + 7 * k)
  }

  /** The index is the number of weeks since the first. */
  ghost predicate IndexIsWeek(dates: Dates)
    requires dates != []
  {
    forall i: nat :: i < |dates| ==> MondayAt(dates, i) == MondayAt(dates, 0) + 7 * i
  }

  lemma {:induction false} FilledUpTo(dates: Dates, i: nat)
    requires dates != [] && Chronological(dates) && NoWeekMissing(dates) && i < |dates|
    ensures MondayAt(dates, i) == MondayAt(dates, 0) + 7 * i
  {
    hide MondayAt;
    if i == 0 {
    } else {
      FilledUpTo(dates, i - 1);
      var next := MondayAt(dates, 0) + 7 * i;
      assert MondayAt(dates, i - 1) + 7 <= MondayAt(dates, i);
      assert i < |dates| - 1 ==> MondayAt(dates, i) <= MondayAt(dates, |dates| - 1);
      assert Occurs(dates, next);
      var k: nat :| k < |dates| && MondayAt(dates, k) == next;
      assert k >= i;
    }
  }

  lemma IndexedIsChronological(dates: Dates)
    requires dates != [] && IndexIsWeek(dates)
    ensures Chronological(dates) && NoWeekMissing(dates)
  {
    hide MondayAt;
    forall i: nat, j: nat | i < j < |dates|
      ensures MondayAt(dates, i) + 7 * (j - i) <= MondayAt(dates, j) && (MondayAt(dates, j) - MondayAt(dates, i)) % 7 == 0
    {
      assert MondayAt(dates, j) - MondayAt(dates, i) == 7 * (j - i);
    }
    forall k: nat | MondayAt(dates, 0) + 7 * k <= MondayAt(dates, |dates| - 1) ensures Occurs(dates, MondayAt(dates, 0) + 7 * k) {
      assert MondayAt(dates, |dates| - 1) == MondayAt(dates, 0) + 7 * (|dates| - 1);
      assert MondayAt(dates, k) == MondayAt(dates, 0) + 7 * k;
    }
  }

  /**
   The regression's xs are the weeks since the first if and only if the ISO years
   sort and no week is missing.  A last group of unreadable dates takes one index more.
   */
  lemma IndexIsWeekIff(weeks: seq<Option<Date>>)
    requires IsSeries(weeks) && Readable(weeks) != []
    ensures IndexIsWeek(Readable(weeks)) <==> YearsAscend(Readable(weeks)) && NoWeekMissing(Readable(weeks))
    ensures |weeks| <= |Readable(weeks)| + 1
  {
    var dates := Readable(weeks);
    hide IsSeries, MondayAt, Readable, YearsAscend, Chronological, NoWeekMissing, IndexIsWeek;
    SeriesIsChronologicalIff(weeks);
    if IndexIsWeek(dates) {
      IndexedIsChronological(dates);
    }
    if YearsAscend(dates) && NoWeekMissing(dates) {
      AllFilled(dates);
    }
  }

  lemma AllFilled(dates: Dates)
    requires dates != [] && Chronological(dates) && NoWeekMissing(dates)
    ensures IndexIsWeek(dates)
  {
    hide MondayAt, Chronological, NoWeekMissing;
    forall i: nat | i < |dates| ensures MondayAt(dates, i) == MondayAt(dates, 0) + 7 * i {
      FilledUpTo(dates, i);
    }
  }

  // --------------------------------------------------- the forecast's Monday

  /** "%Y-W%W-%w" with day 1: weeks counted from the year's first Monday, whatever ISO says. */
  function ParsedMonday(w: IsoWeek): int {
    var first := DaysBeforeYear(w.year) + 1;
    first + (7 - Weekday(first)) % 7 + 7 * (w.week - 1)
  }

  function YearStarts(y: int): int {
    DaysBeforeYear(y) + 1
  }

  /** `ref_date`: the ISO date is taken only if the parsed one falls in an earlier year. */
  function ReferenceDate(w: IsoWeek): int {
    if ParsedMonday(w) < YearStarts(w.year) then WeekOneMonday(w.year) + 7 * (w.week - 1) else ParsedMonday(w)
  }

  /**
   The forecast means the Monday of the last ISO week.  It gets it exactly when
   the ISO year does not start on a Tuesday, Wednesday or Thursday; in those
   years it is a week late, and the guard never corrects it.
   */
  lemma ReferenceIsMondayIff(w: IsoWeek)
    requires 1 <= w.week <= 53
    ensures
      var monday := WeekOneMonday(w.year) + 7 * (w.week - 1);
      var start := Weekday(YearStarts(w.year));
      && ReferenceDate(w) == ParsedMonday(w)
      && (ReferenceDate(w) == monday <==> !(1 <= start <= 3))
      && (1 <= start <= 3 ==> ReferenceDate(w) == monday + 7)
  {
    hide DaysBeforeYear;
  }

  /** 2026 starts on a Thursday: after the week of Monday 2 March 2026 the forecast counts from 9 March. */
  lemma LateReference()
    ensures
      var w := IsoCalendar(Date(2026, 3, 4));
      && w == IsoWeek(2026, 10)
      && MondayOf(Ordinal(Date(2026, 3, 4))) == Ordinal(Date(2026, 3, 2))
      && ReferenceDate(w) == Ordinal(Date(2026, 3, 9))
  {
    assert DaysBeforeMonth(2026, 3) == 59;
    assert DaysBeforeYear(2026) == 739616;
  }
}
