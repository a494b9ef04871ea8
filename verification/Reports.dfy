/**
 The grouped reports over the fact table.  SQL leaves the order of groups to
 each report's ORDER BY, so a report is built from any list of its group keys.
 */
module Reports {
  import opened Wrappers
  import opened Numbers
  import opened Tables
  import opened Grouping
  import opened Algebra
  import opened Facts
  import LogDates

  /** Two columns that differ by at most `e` a row differ by at most `e` times the rows. */
  lemma {:induction false} ColumnsStayClose(ks: seq<string>, f: string -> real, g: string -> real, e: real)
    requires forall k :: -e <= f(k) - g(k) <= e
    ensures -Times(e, |ks| as real) <= Sum(ks, f) - Sum(ks, g) <= Times(e, |ks| as real)
  {
    hide Times;
    if ks == [] {
      Units(e);
    } else {
      var n := |ks| - 1;
      ColumnsStayClose(ks[..n], f, g, e);
      Distributes(e, n as real, 1.0);
      Units(e);
      assert -e <= f(ks[n]) - g(ks[n]) <= e;
    }
  }

  /** The rows of a report, one for each key. */
  function ReportRows<R>(ks: seq<string>, make: string -> R): seq<R> {
    seq(|ks|, i requires 0 <= i < |ks| => make(ks[i]))
  }

  /** A column of a report is summed over its keys. */
  lemma ColumnSum<R>(ks: seq<string>, make: string -> R, column: R -> real, f: string -> real)
    requires forall k :: column(make(k)) == f(k)
    ensures Sum(ReportRows(ks, make), column) == Sum(ks, f)
  {
    SumSame(ReportRows(ks, make), ks, column, f);
  }

  function Rounded(f: string -> real): string -> real {
    (k: string) => Round2(f(k))
  }

  /** A rounded column misses the rounded total by at most half a cent a group and half a cent. */
  lemma RoundedColumn<T>(ks: seq<string>, rows: seq<T>, key: T -> string, f: T -> real)
    requires NoDuplicates(ks) && Covers(ks, rows, key)
    ensures
      var off := Sum(ks, Rounded(GroupSum(rows, key, f))) - Round2(Sum(rows, f));
      var slack := Times(0.005, |ks| as real) + 0.005;
      -slack <= off <= slack
  {
    hide Times, Round2;
    GroupsConserve(ks, rows, key, f);
    ColumnsStayClose(ks, Rounded(GroupSum(rows, key, f)), GroupSum(rows, key, f), 0.005);
    var _ := Round2(Sum(rows, f));
  }

  ghost predicate AllCents<T>(rows: seq<T>, f: T -> real) {
    forall i :: 0 <= i < |rows| ==> IsCents(f(rows[i]))
  }

  lemma CentsOfPart<T>(rows: seq<T>, part: seq<T>, f: T -> real)
    requires AllCents(rows, f) && forall x :: x in part ==> x in rows
    ensures AllCents(part, f)
  {
    hide IsCents;
    forall i | 0 <= i < |part| ensures IsCents(f(part[i])) {
      assert part[i] in rows;
      var j :| 0 <= j < |rows| && rows[j] == part[i];
      assert IsCents(f(rows[j]));
    }
  }

  /** A column of whole cents is conserved exactly, rounding and all. */
  lemma CentColumn<T>(ks: seq<string>, rows: seq<T>, key: T -> string, f: T -> real)
    requires NoDuplicates(ks) && Covers(ks, rows, key) && AllCents(rows, f)
    ensures Sum(ks, Rounded(GroupSum(rows, key, f))) == Round2(Sum(rows, f)) == Sum(rows, f)
  {
    hide IsCents, Round2;
    forall k ensures Rounded(GroupSum(rows, key, f))(k) == GroupSum(rows, key, f)(k) {
      var group := Group(rows, key, k);
      SelectKeeps(rows, InGroup(key, k));
      CentsOfPart(rows, group, f);
      SumIsCents(group, f);
      CentsAreFixed(Sum(group, f));
    }
    SumSame(ks, ks, Rounded(GroupSum(rows, key, f)), GroupSum(rows, key, f));
    GroupsConserve(ks, rows, key, f);
    SumIsCents(rows, f);
    CentsAreFixed(Sum(rows, f));
  }

  // ------------------------------------------------------------------ columns

  function Hours(): Fact -> real {
    (f: Fact) => f.hours
  }

  function Costs(): Fact -> real {
    (f: Fact) => f.cost
  }

  function One(): Fact -> real {
    (f: Fact) => 1.0
  }

  /** CASE WHEN billable = b THEN hours ELSE 0 */
  function HoursIf(b: bool): Fact -> real {
    (f: Fact) => if f.billable == b then f.hours else 0.0
  }

  function Week(): Fact -> string {
    (f: Fact) => f.logWeek
  }

  function Day(): Fact -> string {
    (f: Fact) => f.logDate
  }

  function Project(): Fact -> string {
    (f: Fact) => f.projectId
  }

  function User(): Fact -> string {
    (f: Fact) => f.userId
  }

  function Category(): Fact -> string {
    (f: Fact) => f.category.GetOr("Uncategorised")
  }

  /** An absent or empty parameter filters nothing. */
  function Matching(tenantId: Option<string>, projectId: Option<string>): Fact -> bool {
    (f: Fact) =>
      && (tenantId.GetOr("") == "" || f.tenantId == tenantId.GetOr(""))
      && (projectId.GetOr("") == "" || f.projectId == projectId.GetOr(""))
  }

  lemma {:induction false} EntriesAreCounted(rows: seq<Fact>)
    ensures Sum(rows, One()) == |rows| as real
  {
    if rows == [] {
    } else {
      EntriesAreCounted(rows[..|rows| - 1]);
    }
  }

  lemma HoursSplit(rows: seq<Fact>)
    ensures Sum(rows, HoursIf(true)) + Sum(rows, HoursIf(false)) == Sum(rows, Hours())
  {
    SumSplit(rows, Hours(), HoursIf(true), HoursIf(false));
  }

  // ------------------------------------------------------------------ reports

  datatype WeekRow = WeekRow(week: string, hours: real, cost: real, entries: nat, billable: real, nonBillable: real)

  function WeekOf(rows: seq<Fact>): string -> WeekRow {
    (k: string) =>
      var group := Group(rows, Week(), k);
      WeekRow(k, Round2(Sum(group, Hours())), Round2(Sum(group, Costs())), |group|,
              Round2(Sum(group, HoursIf(true))), Round2(Sum(group, HoursIf(false))))
  }

  /** GET /api/reports/burn-rate */
  function BurnRate(table: seq<Fact>, tenantId: Option<string>, projectId: Option<string>, weeks: seq<string>): seq<WeekRow> {
    var rows := Select(table, Matching(tenantId, projectId));
    ReportRows(weeks, WeekOf(rows))
  }

  function WeekHours(): WeekRow -> real {
    (w: WeekRow) => w.hours
  }

  function WeekCost(): WeekRow -> real {
    (w: WeekRow) => w.cost
  }

  function WeekEntries(): WeekRow -> real {
    (w: WeekRow) => w.entries as real
  }

  datatype Summary = Summary(entries: nat, hours: real, cost: real)

  /** The counts and sums of GET /api/reports/summary, under the same filter. */
  function Summarise(table: seq<Fact>, tenantId: Option<string>, projectId: Option<string>): Summary {
    var rows := Select(table, Matching(tenantId, projectId));
    Summary(|rows|, Round2(Sum(rows, Hours())), Round2(Sum(rows, Costs())))
  }

  ghost predicate Near(x: real, y: real, slack: real) {
    -slack <= x - y <= slack
  }

  /** Half a cent for each group and one for the total. */
  function Slack(groups: nat): real {
    Times(0.005, groups as real) + 0.005
  }

  /** The weeks of the burn rate add up to the summary under the same filter. */
  lemma BurnRateConserves(table: seq<Fact>, tenantId: Option<string>, projectId: Option<string>, weeks: seq<string>)
    requires AreGroups(weeks, Select(table, Matching(tenantId, projectId)), Week())
    ensures
      var report := BurnRate(table, tenantId, projectId, weeks);
      var total := Summarise(table, tenantId, projectId);
      && Sum(report, WeekEntries()) == total.entries as real
      && Near(Sum(report, WeekHours()), total.hours, Slack(|weeks|))
      && Near(Sum(report, WeekCost()), total.cost, Slack(|weeks|))
  {
    var rows := Select(table, Matching(tenantId, projectId));
    var report := BurnRate(table, tenantId, projectId, weeks);
    hide Select, Round2, Times, Matching;
    RoundedColumn(weeks, rows, Week(), Hours());
    ColumnSum(weeks, WeekOf(rows), WeekHours(), Rounded(GroupSum(rows, Week(), Hours())));
    RoundedColumn(weeks, rows, Week(), Costs());
    ColumnSum(weeks, WeekOf(rows), WeekCost(), Rounded(GroupSum(rows, Week(), Costs())));
    GroupsConserve(weeks, rows, Week(), One());
    EntriesAreCounted(rows);
    forall k ensures WeekEntries()(WeekOf(rows)(k)) == GroupSum(rows, Week(), One())(k) {
      EntriesAreCounted(Group(rows, Week(), k));
    }
    ColumnSum(weeks, WeekOf(rows), WeekEntries(), GroupSum(rows, Week(), One()));
  }

  lemma SplitIsNear(rows: seq<Fact>)
    ensures Near(Round2(Sum(rows, HoursIf(true))) + Round2(Sum(rows, HoursIf(false))), Round2(Sum(rows, Hours())), 0.015)
  {
    hide Round2;
    HoursSplit(rows);
  }

  /** The rows grouped with `f` by week are exactly those dated in its week, or undated as it is. */
  lemma WeekGroupsAreWeeks(h: seq<Event>, rows: seq<Fact>, f: Fact, g: Fact)
    requires forall r :: r in rows ==> r in Fold(h).Values
    requires f in rows && g in rows
    ensures g in Group(rows, Week(), f.logWeek) <==> LogDates.SameWeek(LogDates.ParseDate(f.logDate), LogDates.ParseDate(g.logDate))
  {
    hide LogDates.WeekLabel, LogDates.ParseDate, Fold, Select;
    var i :| i in Fold(h) && Fold(h)[i] == f;
    var j :| j in Fold(h) && Fold(h)[j] == g;
    WeeksFollowDates(h, i);
    WeeksFollowDates(h, j);
    LogDates.LabelsAgreeIff(f.logDate, g.logDate);
    SelectKeeps(rows, InGroup(Week(), f.logWeek));
  }

  /** Billable and non-billable hours make up each week's hours, up to the three roundings. */
  lemma WeeksSplit(table: seq<Fact>, tenantId: Option<string>, projectId: Option<string>, weeks: seq<string>)
    ensures
      var report := BurnRate(table, tenantId, projectId, weeks);
      forall i :: 0 <= i < |report| ==> Near(report[i].billable + report[i].nonBillable, report[i].hours, 0.015)
  {
    hide Select, Round2, Near;
    var rows := Select(table, Matching(tenantId, projectId));
    var report := BurnRate(table, tenantId, projectId, weeks);
    forall i | 0 <= i < |report| ensures Near(report[i].billable + report[i].nonBillable, report[i].hours, 0.015) {
      SplitIsNear(Group(rows, Week(), weeks[i]));
    }
  }

  /** When every entry is a whole number of hundredths the weeks add up to the summary exactly. */
  lemma BurnRateIsExactOnHundredths(table: seq<Fact>, tenantId: Option<string>, projectId: Option<string>, weeks: seq<string>)
    requires AreGroups(weeks, Select(table, Matching(tenantId, projectId)), Week())
    requires AllCents(Select(table, Matching(tenantId, projectId)), Hours())
    ensures
      var report := BurnRate(table, tenantId, projectId, weeks);
      Sum(report, WeekHours()) == Summarise(table, tenantId, projectId).hours
    ensures
      var report := BurnRate(table, tenantId, projectId, weeks);
      forall i :: 0 <= i < |report| ==> report[i].billable + report[i].nonBillable == report[i].hours
  {
    var rows := Select(table, Matching(tenantId, projectId));
    var report := BurnRate(table, tenantId, projectId, weeks);
    hide Select, Round2, Matching, IsCents;
    CentColumn(weeks, rows, Week(), Hours());
    ColumnSum(weeks, WeekOf(rows), WeekHours(), Rounded(GroupSum(rows, Week(), Hours())));
    forall i | 0 <= i < |report| ensures report[i].billable + report[i].nonBillable == report[i].hours {
      var group := Group(rows, Week(), weeks[i]);
      SelectKeeps(rows, InGroup(Week(), weeks[i]));
      HoursSplit(group);
      HundredthsOf(rows, group);
    }
  }

  lemma HundredthsOf(rows: seq<Fact>, group: seq<Fact>)
    requires AllCents(rows, Hours()) && forall x :: x in group ==> x in rows
    ensures Round2(Sum(group, Hours())) == Sum(group, Hours())
    ensures forall b :: Round2(Sum(group, HoursIf(b))) == Sum(group, HoursIf(b))
  {
    hide IsCents, Round2;
    ZeroIsCents();
    CentsOfPart(rows, group, Hours());
    SumIsCents(group, Hours());
    CentsAreFixed(Sum(group, Hours()));
    forall b ensures Round2(Sum(group, HoursIf(b))) == Sum(group, HoursIf(b)) {
      forall i | 0 <= i < |group| ensures IsCents(HoursIf(b)(group[i])) {
        assert IsCents(Hours()(group[i]));
      }
      SumIsCents(group, HoursIf(b));
      CentsAreFixed(Sum(group, HoursIf(b)));
    }
  }

  // ------------------------------------------------------------- productivity

  datatype CategoryRow = CategoryRow(category: string, hours: real, percentage: real, entries: nat)

  /** total_hours or 1 */
  function Divisor(total: real): real {
    if total == 0.0 then 1.0 else total
  }

  function Share(hours: real, total: real): real {
    Times(Over(hours, Divisor(total)), 100.0)
  }

  function CategoryOf(rows: seq<Fact>): string -> CategoryRow {
    (k: string) =>
      var group := Group(rows, Category(), k);
      CategoryRow(k, Round2(Sum(group, Hours())), Round1(Share(Sum(group, Hours()), Sum(rows, Hours()))), |group|)
  }

  /** GET /api/reports/productivity */
  function Productivity(table: seq<Fact>, tenantId: Option<string>, projectId: Option<string>, categories: seq<string>)
    : seq<CategoryRow>
  {
    var rows := Select(table, Matching(tenantId, projectId));
    ReportRows(categories, CategoryOf(rows))
  }

  function Percentage(): CategoryRow -> real {
    (c: CategoryRow) => c.percentage
  }

  function CategoryHours(): CategoryRow -> real {
    (c: CategoryRow) => c.hours
  }

  function Shares(f: string -> real, total: real): string -> real {
    (k: string) => Share(f(k), total)
  }

  function RoundedShares(f: string -> real, total: real): string -> real {
    (k: string) => Round1(Share(f(k), total))
  }

  lemma ShareAdds(x: real, y: real, total: real)
    ensures Share(x + y, total) == Share(x, total) + Share(y, total)
  {
    var d := Divisor(total);
    assert (x + y) / d == x / d + y / d;
    Distributes(100.0, x / d, y / d);
  }

  lemma {:induction false} SharesAdd(ks: seq<string>, f: string -> real, total: real)
    ensures Sum(ks, Shares(f, total)) == Share(Sum(ks, f), total)
  {
    hide Share;
    if ks == [] {
      ShareAdds(0.0, 0.0, total);
    } else {
      var n := |ks| - 1;
      SharesAdd(ks[..n], f, total);
      ShareAdds(Sum(ks[..n], f), f(ks[n]), total);
    }
  }

  lemma SharesRound(ks: seq<string>, f: string -> real, total: real)
    ensures Near(Sum(ks, RoundedShares(f, total)), Sum(ks, Shares(f, total)), Times(0.05, |ks| as real))
  {
    hide Round1, Share, Times;
    forall k ensures -0.05 <= RoundedShares(f, total)(k) - Shares(f, total)(k) <= 0.05 {
      var _ := Round1(Share(f(k), total));
    }
    ColumnsStayClose(ks, RoundedShares(f, total), Shares(f, total), 0.05);
  }

  lemma WholeShare(total: real)
    ensures Share(total, total) == if total == 0.0 then 0.0 else 100.0
  {
    if total != 0.0 {
      assert total / total == 1.0;
    }
  }

  /** k rounded percentages sum to 100 within 0.05 k, or to 0 when there are no hours; the hours to the total. */
  lemma PercentagesSumToHundred(table: seq<Fact>, tenantId: Option<string>, projectId: Option<string>, categories: seq<string>)
    requires AreGroups(categories, Select(table, Matching(tenantId, projectId)), Category())
    ensures
      var report := Productivity(table, tenantId, projectId, categories);
      var total := Sum(Select(table, Matching(tenantId, projectId)), Hours());
      && Near(Sum(report, Percentage()), if total == 0.0 then 0.0 else 100.0, Times(0.05, |categories| as real))
      && Near(Sum(report, CategoryHours()), Round2(total), Slack(|categories|))
  {
    var rows := Select(table, Matching(tenantId, projectId));
    var report := Productivity(table, tenantId, projectId, categories);
    var hours := GroupSum(rows, Category(), Hours());
    var total := Sum(rows, Hours());
    hide Select, Round1, Round2, Share, Times, Matching;
    GroupsConserve(categories, rows, Category(), Hours());
    SharesAdd(categories, hours, total);
    WholeShare(total);
    SharesRound(categories, hours, total);
    ColumnSum(categories, CategoryOf(rows), Percentage(), RoundedShares(hours, total));
    RoundedColumn(categories, rows, Category(), Hours());
    ColumnSum(categories, CategoryOf(rows), CategoryHours(), Rounded(hours));
  }

  // --------------------------------------------------------------- individual

  datatype DayRow = DayRow(date: string, hours: real, cost: real, entries: nat)

  datatype ProjectRow = ProjectRow(projectId: string, hours: real, cost: real)

  datatype Individual = Individual(
    hours: real, cost: real, billable: real, nonBillable: real, billableRatio: real, entries: nat,
    days: seq<DayRow>, projects: seq<ProjectRow>)

  function Ratio(part: real, total: real): real {
    if total > 0.0 then Round1(Share(part, total)) else 0.0
  }

  function DayOf(rows: seq<Fact>): string -> DayRow {
    (k: string) =>
      var group := Group(rows, Day(), k);
      DayRow(k, Round2(Sum(group, Hours())), Round2(Sum(group, Costs())), |group|)
  }

  function ProjectOf(rows: seq<Fact>): string -> ProjectRow {
    (k: string) =>
      var group := Group(rows, Project(), k);
      ProjectRow(k, Round2(Sum(group, Hours())), Round2(Sum(group, Costs())))
  }

  /** GET /api/reports/individual */
  function IndividualReport(table: seq<Fact>, userId: string, days: seq<string>, projects: seq<string>): Individual {
    var rows := Group(table, User(), userId);
    var total, billable := Sum(rows, Hours()), Sum(rows, HoursIf(true));
    Individual(
      Round2(total), Round2(Sum(rows, Costs())), Round2(billable), Round2(Sum(rows, HoursIf(false))),
      Ratio(billable, total), |rows|,
      ReportRows(days, DayOf(rows)), ReportRows(projects, ProjectOf(rows)))
  }

  function DayHours(): DayRow -> real {
    (d: DayRow) => d.hours
  }

  function DayEntries(): DayRow -> real {
    (d: DayRow) => d.entries as real
  }

  function DayCost(): DayRow -> real {
    (d: DayRow) => d.cost
  }

  function ProjectHours(): ProjectRow -> real {
    (p: ProjectRow) => p.hours
  }

  function ProjectCost(): ProjectRow -> real {
    (p: ProjectRow) => p.cost
  }

  /** A rounded column of a report stays near the rounded total. */
  lemma ColumnConserves<R>(ks: seq<string>, rows: seq<Fact>, key: Fact -> string, f: Fact -> real, make: string -> R, column: R -> real)
    requires NoDuplicates(ks) && Covers(ks, rows, key)
    requires forall k :: column(make(k)) == Round2(Sum(Group(rows, key, k), f))
    ensures Near(Sum(ReportRows(ks, make), column), Round2(Sum(rows, f)), Slack(|ks|))
  {
    hide Select, Round2, Times, Group, Covers, NoDuplicates;
    RoundedColumn(ks, rows, key, f);
    ColumnSum(ks, make, column, Rounded(GroupSum(rows, key, f)));
  }

  lemma DaysConserve(rows: seq<Fact>, days: seq<string>)
    requires AreGroups(days, rows, Day())
    ensures Near(Sum(ReportRows(days, DayOf(rows)), DayHours()), Round2(Sum(rows, Hours())), Slack(|days|))
    ensures Near(Sum(ReportRows(days, DayOf(rows)), DayCost()), Round2(Sum(rows, Costs())), Slack(|days|))
  {
    hide Group, Round2, Sum, ReportRows, Near, Slack, NoDuplicates, Covers;
    ColumnConserves(days, rows, Day(), Hours(), DayOf(rows), DayHours());
    ColumnConserves(days, rows, Day(), Costs(), DayOf(rows), DayCost());
  }

  lemma DaysCountEntries(rows: seq<Fact>, days: seq<string>)
    requires AreGroups(days, rows, Day())
    ensures Sum(ReportRows(days, DayOf(rows)), DayEntries()) == |rows| as real
  {
    hide Select, Round2;
    GroupsConserve(days, rows, Day(), One());
    EntriesAreCounted(rows);
    forall k ensures DayEntries()(DayOf(rows)(k)) == GroupSum(rows, Day(), One())(k) {
      EntriesAreCounted(Group(rows, Day(), k));
    }
    ColumnSum(days, DayOf(rows), DayEntries(), GroupSum(rows, Day(), One()));
  }

  lemma ProjectsConserve(rows: seq<Fact>, projects: seq<string>)
    requires AreGroups(projects, rows, Project())
    ensures Near(Sum(ReportRows(projects, ProjectOf(rows)), ProjectHours()), Round2(Sum(rows, Hours())), Slack(|projects|))
    ensures Near(Sum(ReportRows(projects, ProjectOf(rows)), ProjectCost()), Round2(Sum(rows, Costs())), Slack(|projects|))
  {
    hide Group, Round2, Sum, ReportRows, Near, Slack, NoDuplicates, Covers;
    ColumnConserves(projects, rows, Project(), Hours(), ProjectOf(rows), ProjectHours());
    ColumnConserves(projects, rows, Project(), Costs(), ProjectOf(rows), ProjectCost());
  }

  lemma RatioIsPercentage(rows: seq<Fact>)
    requires forall i :: 0 <= i < |rows| ==> rows[i].hours >= 0.0
    ensures 0.0 <= Ratio(Sum(rows, HoursIf(true)), Sum(rows, Hours())) <= 100.0
  {
    var part, rest, total := Sum(rows, HoursIf(true)), Sum(rows, HoursIf(false)), Sum(rows, Hours());
    HoursSplit(rows);
    SumSign(rows, HoursIf(true));
    SumSign(rows, HoursIf(false));
    hide Sum, Share;
    if total > 0.0 {
      ShareOfPart(part, total);
      RoundHalfEvenMonotone(0.0, Share(part, total) * 10.0);
      RoundHalfEvenMonotone(Share(part, total) * 10.0, 1000.0);
    }
  }

  lemma ShareOfPart(part: real, total: real)
    requires 0.0 <= part <= total && total > 0.0
    ensures 0.0 <= Share(part, total) <= 100.0
  {
    var q := Over(part, total);
    Divides(part, total);
    SignOfProduct(total, q);
    SignOfProduct(total, q - 1.0);
    Distributes(total, q, 1.0);
  }

  lemma {:induction false} SumSign<T>(rows: seq<T>, f: T -> real)
    requires forall i :: 0 <= i < |rows| ==> f(rows[i]) >= 0.0
    ensures Sum(rows, f) >= 0.0
  {
    if rows == [] {
    } else {
      var n := |rows| - 1;
      assert f(rows[n]) >= 0.0;
      SumSign(rows[..n], f);
    }
  }

  /** Both breakdowns of one user add up to that user's totals; without negative entries the billable ratio is a percentage. */
  lemma BreakdownsConserve(table: seq<Fact>, userId: string, days: seq<string>, projects: seq<string>)
    requires AreGroups(days, Group(table, User(), userId), Day())
    requires AreGroups(projects, Group(table, User(), userId), Project())
    ensures
      var report := IndividualReport(table, userId, days, projects);
      && Near(Sum(report.days, DayHours()), report.hours, Slack(|days|))
      && Near(Sum(report.days, DayCost()), report.cost, Slack(|days|))
      && Near(Sum(report.projects, ProjectHours()), report.hours, Slack(|projects|))
      && Near(Sum(report.projects, ProjectCost()), report.cost, Slack(|projects|))
      && Sum(report.days, DayEntries()) == report.entries as real
      && Near(report.billable + report.nonBillable, report.hours, 0.015)
      && ((forall f :: f in table && f.userId == userId ==> f.hours >= 0.0) ==> 0.0 <= report.billableRatio <= 100.0)
  {
    hide Group, Round1, Round2, Sum, AreGroups, Near, Slack, Ratio, ReportRows;
    var rows := Group(table, User(), userId);
    DaysConserve(rows, days);
    DaysCountEntries(rows, days);
    ProjectsConserve(rows, projects);
    if forall f :: f in table && f.userId == userId ==> f.hours >= 0.0 {
      UserRatio(table, userId);
    }
    SplitIsNear(rows);
  }

  lemma UserRatio(table: seq<Fact>, userId: string)
    requires forall f :: f in table && f.userId == userId ==> f.hours >= 0.0
    ensures
      var rows := Group(table, User(), userId);
      0.0 <= Ratio(Sum(rows, HoursIf(true)), Sum(rows, Hours())) <= 100.0
  {
    var rows := Group(table, User(), userId);
    SelectKeeps(table, InGroup(User(), userId));
    hide Ratio, Sum, Select;
    forall i | 0 <= i < |rows| ensures rows[i].hours >= 0.0 {
      assert rows[i] in rows;
    }
    RatioIsPercentage(rows);
  }

  /** Users partition the table: their totals, before rounding, add up to everyone's. */
  lemma UsersConserve(table: seq<Fact>, users: seq<string>)
    requires AreGroups(users, table, User())
    ensures Sum(users, GroupSum(table, User(), Hours())) == Sum(table, Hours())
    ensures Sum(users, GroupSum(table, User(), Costs())) == Sum(table, Costs())
  {
    GroupsConserve(users, table, User(), Hours());
    GroupsConserve(users, table, User(), Costs());
  }
}
