/** What each figure of the grouped reports is: which rows of the table it sums or counts, stated row by row. */
module ReportRules {
  import opened Wrappers
  import opened Numbers
  import opened Tables
  import opened Grouping
  import opened Algebra
  import opened Facts
  import opened Reports

  /** An absent or empty parameter asks for everything. */
  predicate Asked(f: Fact, tenantId: Option<string>, projectId: Option<string>) {
    && (tenantId.None? || tenantId.value == "" || f.tenantId == tenantId.value)
    && (projectId.None? || projectId.value == "" || f.projectId == projectId.value)
  }

  function All(tenantId: Option<string>, projectId: Option<string>): Fact -> bool {
    (f: Fact) => Asked(f, tenantId, projectId)
  }

  function InWeek(tenantId: Option<string>, projectId: Option<string>, week: string): Fact -> bool {
    (f: Fact) => Asked(f, tenantId, projectId) && f.logWeek == week
  }

  function BillableIn(tenantId: Option<string>, projectId: Option<string>, week: string, billable: bool): Fact -> bool {
    (f: Fact) => Asked(f, tenantId, projectId) && f.logWeek == week && f.billable == billable
  }

  function InCategory(tenantId: Option<string>, projectId: Option<string>, category: string): Fact -> bool {
    (f: Fact) =>
      && Asked(f, tenantId, projectId)
      && (if f.category.Some? then f.category.value == category else category == "Uncategorised")
  }

  function OfUser(userId: string): Fact -> bool {
    (f: Fact) => f.userId == userId
  }

  function OfUserBillable(userId: string, billable: bool): Fact -> bool {
    (f: Fact) => f.userId == userId && f.billable == billable
  }

  function OfUserOn(userId: string, day: string): Fact -> bool {
    (f: Fact) => f.userId == userId && f.logDate == day
  }

  function OfUserFor(userId: string, projectId: string): Fact -> bool {
    (f: Fact) => f.userId == userId && f.projectId == projectId
  }

  /** The hours of the rows that count. */
  function HoursWhere(p: Fact -> bool): Fact -> real {
    (f: Fact) => if p(f) then f.hours else 0.0
  }

  function CostsWhere(p: Fact -> bool): Fact -> real {
    (f: Fact) => if p(f) then f.cost else 0.0
  }

  // ------------------------------------------------------------------ sums

  lemma {:induction false} SelectedSum<T>(rows: seq<T>, p: T -> bool, f: T -> real, g: T -> real)
    requires forall i :: 0 <= i < |rows| ==> g(rows[i]) == if p(rows[i]) then f(rows[i]) else 0.0
    ensures Sum(Select(rows, p), f) == Sum(rows, g)
  {
    if rows == [] {
    } else {
      var n := |rows| - 1;
      SelectedSum(rows[..n], p, f, g);
      if p(rows[n]) {
        SumAppend(Select(rows[..n], p), rows[n], f);
      } else {
        assert Select(rows[..n], p) + [] == Select(rows[..n], p);
      }
    }
  }

  lemma {:induction false} SelectedCount<T>(rows: seq<T>, p: T -> bool)
    ensures |Select(rows, p)| == |Positions(rows, p)|
  {
    CountIsNumber(rows, p);
    if rows == [] {
    } else {
      var n := |rows| - 1;
      SelectedCount(rows[..n], p);
      CountIsNumber(rows[..n], p);
    }
  }

  /** Filtering twice is filtering by both. */
  lemma {:induction false} SelectTwice<T>(rows: seq<T>, p: T -> bool, q: T -> bool, both: T -> bool)
    requires forall x :: both(x) <==> p(x) && q(x)
    ensures Select(Select(rows, p), q) == Select(rows, both)
  {
    if rows == [] {
    } else {
      var n := |rows| - 1;
      SelectTwice(rows[..n], p, q, both);
      var init := Select(rows[..n], p);
      if p(rows[n]) {
        assert (init + [rows[n]])[..|init|] == init;
      } else {
        assert init + [] == init;
      }
    }
  }

  /** The group's rows in the whole table, with their hours and costs. */
  lemma GroupShows(table: seq<Fact>, p: Fact -> bool, key: Fact -> string, k: string, both: Fact -> bool)
    requires forall f :: both(f) <==> p(f) && key(f) == k
    ensures
      var group := Group(Select(table, p), key, k);
      && Sum(group, Hours()) == Sum(table, HoursWhere(both)) && Sum(group, Costs()) == Sum(table, CostsWhere(both))
      && |group| == |Positions(table, both)|
  {
    SelectTwice(table, p, InGroup(key, k), both);
    SelectedSum(table, both, Hours(), HoursWhere(both));
    SelectedSum(table, both, Costs(), CostsWhere(both));
    SelectedCount(table, both);
  }

  lemma SelectionShows(table: seq<Fact>, p: Fact -> bool, asked: Fact -> bool)
    requires forall f :: asked(f) <==> p(f)
    ensures
      var rows := Select(table, p);
      && Sum(rows, Hours()) == Sum(table, HoursWhere(asked)) && Sum(rows, Costs()) == Sum(table, CostsWhere(asked))
      && |rows| == |Positions(table, asked)|
  {
    SelectedSum(table, p, Hours(), HoursWhere(asked));
    SelectedSum(table, p, Costs(), CostsWhere(asked));
    SelectedCount(table, p);
    assert Positions(table, p) == Positions(table, asked);
  }

  lemma SplitShows(table: seq<Fact>, p: Fact -> bool, b: bool, both: Fact -> bool)
    requires forall f :: both(f) <==> p(f) && f.billable == b
    ensures Sum(Select(table, p), HoursIf(b)) == Sum(table, HoursWhere(both))
  {
    SelectedSum(table, p, HoursIf(b), HoursWhere(both));
  }

  // --------------------------------------------------------------- reports

  /** A week of the burn rate shows exactly the rows of the tenant and project asked for that lie in it. */
  lemma BurnRateShows(table: seq<Fact>, tenantId: Option<string>, projectId: Option<string>, weeks: seq<string>, i: nat)
    requires i < |weeks|
    ensures |BurnRate(table, tenantId, projectId, weeks)| == |weeks|
    ensures
      var row := BurnRate(table, tenantId, projectId, weeks)[i];
      var rows := InWeek(tenantId, projectId, weeks[i]);
      && row.week == weeks[i] && row.entries == |Positions(table, rows)|
      && NearestCent(row.hours, Sum(table, HoursWhere(rows))) && NearestCent(row.cost, Sum(table, CostsWhere(rows)))
      && NearestCent(row.billable, Sum(table, HoursWhere(BillableIn(tenantId, projectId, weeks[i], true))))
      && NearestCent(row.nonBillable, Sum(table, HoursWhere(BillableIn(tenantId, projectId, weeks[i], false))))
  {
    var p, w := Matching(tenantId, projectId), weeks[i];
    var group := Group(Select(table, p), Week(), w);
    hide Select, Round2, NearestCent, Sum;
    GroupShows(table, p, Week(), w, InWeek(tenantId, projectId, w));
    SelectTwice(table, p, InGroup(Week(), w), InWeek(tenantId, projectId, w));
    SplitShows(table, InWeek(tenantId, projectId, w), true, BillableIn(tenantId, projectId, w, true));
    SplitShows(table, InWeek(tenantId, projectId, w), false, BillableIn(tenantId, projectId, w, false));
    Round2IsNearestCent(Sum(group, Hours()));
    Round2IsNearestCent(Sum(group, Costs()));
    Round2IsNearestCent(Sum(group, HoursIf(true)));
    Round2IsNearestCent(Sum(group, HoursIf(false)));
  }

  /** The summary shows exactly the rows asked for. */
  lemma SummaryShows(table: seq<Fact>, tenantId: Option<string>, projectId: Option<string>)
    ensures
      var total, rows := Summarise(table, tenantId, projectId), All(tenantId, projectId);
      && total.entries == |Positions(table, rows)|
      && NearestCent(total.hours, Sum(table, HoursWhere(rows))) && NearestCent(total.cost, Sum(table, CostsWhere(rows)))
  {
    var rows := Select(table, Matching(tenantId, projectId));
    SelectionShows(table, Matching(tenantId, projectId), All(tenantId, projectId));
    hide Select, Round2, NearestCent, Sum;
    Round2IsNearestCent(Sum(rows, Hours()));
    Round2IsNearestCent(Sum(rows, Costs()));
  }

  /** Hundred times the part over the total; a total of zero counts as one. */
  function PercentOf(part: real, total: real): real {
    part / (if total == 0.0 then 1.0 else total) * 100.0
  }

  lemma ShareIsPercent(part: real, total: real)
    ensures Share(part, total) == PercentOf(part, total)
  {
  }

  /** A category shows its rows, those without a category as "Uncategorised", and its share of all hours asked for. */
  lemma ProductivityShows(table: seq<Fact>, tenantId: Option<string>, projectId: Option<string>, categories: seq<string>, i: nat)
    requires i < |categories|
    ensures |Productivity(table, tenantId, projectId, categories)| == |categories|
    ensures
      var row := Productivity(table, tenantId, projectId, categories)[i];
      var rows := InCategory(tenantId, projectId, categories[i]);
      var hours, total := Sum(table, HoursWhere(rows)), Sum(table, HoursWhere(All(tenantId, projectId)));
      && row.category == categories[i] && row.entries == |Positions(table, rows)|
      && NearestCent(row.hours, hours) && NearestTenth(row.percentage, PercentOf(hours, total))
  {
    var p, c := Matching(tenantId, projectId), categories[i];
    var group := Group(Select(table, p), Category(), c);
    SelectionShows(table, p, All(tenantId, projectId));
    hide Select, Round1, Round2, NearestCent, NearestTenth, Sum, Share, PercentOf;
    GroupShows(table, p, Category(), c, InCategory(tenantId, projectId, c));
    Round2IsNearestCent(Sum(group, Hours()));
    Round1IsNearestTenth(Share(Sum(group, Hours()), Sum(Select(table, p), Hours())));
    ShareIsPercent(Sum(group, Hours()), Sum(Select(table, p), Hours()));
  }

  /** A user's totals are those of the user's rows, split by billability; the ratio is the billable share, or 0 without hours. */
  lemma IndividualShows(table: seq<Fact>, userId: string, days: seq<string>, projects: seq<string>)
    ensures
      var report := IndividualReport(table, userId, days, projects);
      var hours, billable := Sum(table, HoursWhere(OfUser(userId))), Sum(table, HoursWhere(OfUserBillable(userId, true)));
      && report.entries == |Positions(table, OfUser(userId))|
      && NearestCent(report.hours, hours) && NearestCent(report.cost, Sum(table, CostsWhere(OfUser(userId))))
      && NearestCent(report.billable, billable)
      && NearestCent(report.nonBillable, Sum(table, HoursWhere(OfUserBillable(userId, false))))
      && (if hours > 0.0 then NearestTenth(report.billableRatio, PercentOf(billable, hours)) else report.billableRatio == 0.0)
      && |report.days| == |days| && |report.projects| == |projects|
  {
    var rows := Group(table, User(), userId);
    SelectionShows(table, InGroup(User(), userId), OfUser(userId));
    SplitShows(table, InGroup(User(), userId), true, OfUserBillable(userId, true));
    SplitShows(table, InGroup(User(), userId), false, OfUserBillable(userId, false));
    hide Select, Round1, Round2, NearestCent, NearestTenth, Sum, Share, PercentOf;
    Round2IsNearestCent(Sum(rows, Hours()));
    Round2IsNearestCent(Sum(rows, Costs()));
    Round2IsNearestCent(Sum(rows, HoursIf(true)));
    Round2IsNearestCent(Sum(rows, HoursIf(false)));
    Round1IsNearestTenth(Share(Sum(rows, HoursIf(true)), Sum(rows, Hours())));
    ShareIsPercent(Sum(rows, HoursIf(true)), Sum(rows, Hours()));
  }

  /** A day of the user shows the user's rows of that date. */
  lemma DayShows(table: seq<Fact>, userId: string, days: seq<string>, projects: seq<string>, i: nat)
    requires i < |days|
    ensures
      var row, rows := IndividualReport(table, userId, days, projects).days[i], OfUserOn(userId, days[i]);
      && row.date == days[i] && row.entries == |Positions(table, rows)|
      && NearestCent(row.hours, Sum(table, HoursWhere(rows))) && NearestCent(row.cost, Sum(table, CostsWhere(rows)))
  {
    var group := Group(Group(table, User(), userId), Day(), days[i]);
    GroupShows(table, InGroup(User(), userId), Day(), days[i], OfUserOn(userId, days[i]));
    hide Select, Round2, NearestCent, Sum;
    Round2IsNearestCent(Sum(group, Hours()));
    Round2IsNearestCent(Sum(group, Costs()));
  }

  /** A project of the user shows the user's rows of that project. */
  lemma ProjectShows(table: seq<Fact>, userId: string, days: seq<string>, projects: seq<string>, i: nat)
    requires i < |projects|
    ensures
      var row, rows := IndividualReport(table, userId, days, projects).projects[i], OfUserFor(userId, projects[i]);
      && row.projectId == projects[i]
      && NearestCent(row.hours, Sum(table, HoursWhere(rows))) && NearestCent(row.cost, Sum(table, CostsWhere(rows)))
  {
    var group := Group(Group(table, User(), userId), Project(), projects[i]);
    GroupShows(table, InGroup(User(), userId), Project(), projects[i], OfUserFor(userId, projects[i]));
    hide Select, Round2, NearestCent, Sum;
    Round2IsNearestCent(Sum(group, Hours()));
    Round2IsNearestCent(Sum(group, Costs()));
  }
}
