/**
 When a timesheet's total is the sum of the hours of its logs.  The total is
 written at submission only, so later edits, logs left off the page and logs
 taken over by another sheet are exactly what separates the two.
 */
module TimesheetTotals {
  import opened Wrappers
  import opened Tables
  import opened Workflow
  import opened WorkflowInvariants

  function LinkedHours(sheetId: nat): Log -> real {
    (l: Log) => if l.timesheetId == Some(sheetId) then l.hours else 0.0
  }

  ghost predicate SheetAgrees(db: Db, s: nat)
    requires s < |db.sheets|
  {
    db.sheets[s].totalHours == Sum(db.logs, LinkedHours(s))
  }

  ghost predicate TotalsAgree(db: Db) {
    forall s: nat :: s < |db.sheets| ==> SheetAgrees(db, s)
  }

  /** Nothing with hours is left behind on the submitted sheet or taken from another one. */
  predicate CleanSubmission(db: Db, op: Op)
    requires op.SubmitSheet?
  {
    forall i :: 0 <= i < |db.logs| && db.logs[i].timesheetId.Some? && db.logs[i].hours != 0.0 ==>
      (i in op.picked <==> db.logs[i].timesheetId == Some(SheetOf(db, op)))
  }

  /** The request leaves the hours of a linked log alone, and a submission that goes ahead is clean. */
  predicate KeepsTotals(w: World, r: Request) {
    && (OnOneLog(r.op) && HasLog(w.db, r.op.tenantId, r.op.logId) && w.db.logs[r.op.logId].timesheetId.Some? ==>
          HoursAfter(r.op, w.db.logs[r.op.logId], w.clock + r.wait) == w.db.logs[r.op.logId].hours)
    && (r.op.SubmitSheet? && MaySubmit(w.db, r.op) ==> CleanSubmission(w.db, r.op))
  }

  lemma {:induction false} SumZeroIff<T>(rows: seq<T>, f: T -> real)
    requires forall i :: 0 <= i < |rows| ==> 0.0 <= f(rows[i])
    ensures 0.0 <= Sum(rows, f)
    ensures Sum(rows, f) == 0.0 <==> forall i :: 0 <= i < |rows| ==> f(rows[i]) == 0.0
  {
    if rows == [] {
    } else {
      var n := |rows| - 1;
      SumZeroIff(rows[..n], f);
      assert forall i :: 0 <= i < n ==> rows[..n][i] == rows[i];
    }
  }

  // ------------------------------------------------------------- submission

  /** Hours linked to the sheet that the page does not contain. */
  function LeftBehind(sheetId: nat, picked: set<nat>): Log -> real {
    (l: Log) => if l.timesheetId == Some(sheetId) && l.id !in picked then l.hours else 0.0
  }

  /** Hours of the page that are linked to the sheet so far. */
  function Taken(sheetId: nat, picked: set<nat>): Log -> real {
    (l: Log) => if l.timesheetId == Some(sheetId) && l.id in picked then l.hours else 0.0
  }

  lemma SubmittedSum(logs: seq<Log>, picked: set<nat>, sheetId: nat)
    ensures Sum(LinkedRows(logs, picked, sheetId), LinkedHours(sheetId))
         == Sum(logs, PickedHours(picked)) + Sum(logs, LeftBehind(sheetId, picked))
  {
    var after := (l: Log) => LinkedHours(sheetId)(Linked(l, picked, sheetId));
    SumSame(LinkedRows(logs, picked, sheetId), logs, LinkedHours(sheetId), after);
    SumSplit(logs, after, PickedHours(picked), LeftBehind(sheetId, picked));
  }

  lemma OtherSum(logs: seq<Log>, picked: set<nat>, sheetId: nat, other: nat)
    requires other != sheetId
    ensures Sum(logs, LinkedHours(other))
         == Sum(LinkedRows(logs, picked, sheetId), LinkedHours(other)) + Sum(logs, Taken(other, picked))
  {
    var after := (l: Log) => LinkedHours(other)(Linked(l, picked, sheetId));
    SumSame(LinkedRows(logs, picked, sheetId), logs, LinkedHours(other), after);
    SumSplit(logs, LinkedHours(other), after, Taken(other, picked));
  }

  lemma SheetAfterSubmit(w: World, r: Request, s: nat)
    requires Sound(w) && r.op.SubmitSheet? && Commits(w, r) && TotalsAgree(w.db)
    requires s < |Next(w, r).db.sheets|
    ensures SheetAgrees(Next(w, r).db, s) <==>
      if s == SheetOf(w.db, r.op) then Sum(w.db.logs, LeftBehind(s, r.op.picked)) == 0.0
      else Sum(w.db.logs, Taken(s, r.op.picked)) == 0.0
  {
    var sheetId := SheetOf(w.db, r.op);
    var db' := Next(w, r).db;
    assert db'.logs == LinkedRows(w.db.logs, r.op.picked, sheetId);
    if s == sheetId {
      SubmittedSum(w.db.logs, r.op.picked, s);
    } else {
      OtherSum(w.db.logs, r.op.picked, sheetId, s);
      assert SheetAgrees(w.db, s);
    }
  }

  /** A sheet agrees after a submission exactly if no hours are left behind on it or taken from it. */
  lemma SheetAgreesIff(w: World, r: Request, s: nat)
    requires Sound(w) && r.op.SubmitSheet? && Commits(w, r) && TotalsAgree(w.db) && s < |Next(w, r).db.sheets|
    ensures SheetAgrees(Next(w, r).db, s) <==>
      forall i :: 0 <= i < |w.db.logs| && w.db.logs[i].timesheetId == Some(s) && w.db.logs[i].hours != 0.0 ==>
        (i in r.op.picked <==> s == SheetOf(w.db, r.op))
  {
    SheetAfterSubmit(w, r, s);
    forall i: nat | i < |w.db.logs| ensures 0.0 <= w.db.logs[i].hours && w.db.logs[i].id == i {
      assert LogSound(w, i);
    }
    hide Sum, Next, Commits, Sound, SheetOf, SheetAgrees, TotalsAgree;
    SumZeroIff(w.db.logs, LeftBehind(s, r.op.picked));
    SumZeroIff(w.db.logs, Taken(s, r.op.picked));
  }

  lemma SubmitTotalsIff(w: World, r: Request)
    requires Sound(w) && r.op.SubmitSheet? && Commits(w, r) && TotalsAgree(w.db)
    ensures TotalsAgree(Next(w, r).db) <==> CleanSubmission(w.db, r.op)
  {
    SheetsKeepWeeks(w, r);
    var sheetId := SheetOf(w.db, r.op);
    var db' := Next(w, r).db;
    hide Next, Commits, SheetOf, SheetAgrees;
    forall i: nat | i < |w.db.logs|
      ensures w.db.logs[i].timesheetId.Some? ==> w.db.logs[i].timesheetId.value < |db'.sheets|
    {
      LogKnown(w, i);
    }
    forall s: nat | s < |db'.sheets|
      ensures SheetAgrees(db', s) <==>
        forall i :: 0 <= i < |w.db.logs| && w.db.logs[i].timesheetId == Some(s) && w.db.logs[i].hours != 0.0 ==>
          (i in r.op.picked <==> s == sheetId)
    {
      SheetAgreesIff(w, r, s);
    }
    hide Sound;
    if TotalsAgree(db') {
      forall i | 0 <= i < |w.db.logs| && w.db.logs[i].timesheetId.Some? && w.db.logs[i].hours != 0.0
        ensures i in r.op.picked <==> w.db.logs[i].timesheetId == Some(sheetId)
      {
        assert SheetAgrees(db', w.db.logs[i].timesheetId.value);
      }
    }
  }

  // ------------------------------------------------------------ other steps

  lemma OneLogTotalsIff(w: World, r: Request)
    requires Sound(w) && OnOneLog(r.op) && Commits(w, r) && TotalsAgree(w.db)
    ensures TotalsAgree(Next(w, r).db) <==> KeepsTotals(w, r)
  {
    hide Execute, Sound, TotalsAgree, Changed, HoursAfter, TimerSound;
    OneLogOutcome(w, r.op, w.clock + r.wait);
    var i := r.op.logId;
    var l' := Changed(r.op, w.db.logs[i], w.clock + r.wait).value;
    LogKnown(w, i);
    assert Next(w, r).db == w.db.(logs := w.db.logs[i := l']);
    HoursAfterIsChanged(r.op, w.db.logs[i], w.clock + r.wait);
    ChangedKeepsSheet(r.op, w.db.logs[i], w.clock + r.wait);
    ReplacedLogTotals(w.db, i, l');
  }

  /** Replacing a log by another of the same sheet keeps the totals exactly if a linked log keeps its hours. */
  lemma ReplacedLogTotals(db: Db, i: nat, l: Log)
    requires TotalsAgree(db) && i < |db.logs| && l.timesheetId == db.logs[i].timesheetId
    requires l.timesheetId.Some? ==> l.timesheetId.value < |db.sheets|
    ensures TotalsAgree(db.(logs := db.logs[i := l])) <==> (l.timesheetId.Some? ==> l.hours == db.logs[i].hours)
  {
    var db' := db.(logs := db.logs[i := l]);
    forall s: nat | s < |db'.sheets|
      ensures SheetAgrees(db', s) <==> (l.timesheetId == Some(s) ==> l.hours == db.logs[i].hours)
    {
      assert SheetAgrees(db, s);
      SumUpdate(db.logs, i, l, LinkedHours(s));
    }
    hide SheetAgrees;
  }

  lemma NewLogKeepsTotals(w: World, r: Request)
    requires Sound(w) && (r.op.CreateLog? || r.op.StartTimer?) && TotalsAgree(w.db)
    ensures TotalsAgree(Next(w, r).db)
  {
    var db' := Next(w, r).db;
    forall s: nat | s < |db'.sheets| ensures SheetAgrees(db', s) {
      assert SheetAgrees(w.db, s);
      if |db'.logs| > |w.db.logs| {
        SumAppend(w.db.logs, db'.logs[|w.db.logs|], LinkedHours(s));
      }
    }
  }

  lemma DecisionKeepsTotals(w: World, r: Request)
    requires Sound(w) && (r.op.ApproveSheet? || r.op.RejectSheet?) && TotalsAgree(w.db)
    ensures TotalsAgree(Next(w, r).db)
  {
    hide Create, Start, OnLog, Submit, EventsFor, AllLinked, Sum, Sound;
    var db' := Next(w, r).db;
    forall s: nat | s < |db'.sheets| ensures SheetAgrees(db', s) {
      assert SheetAgrees(w.db, s);
      SumSame(db'.logs, w.db.logs, LinkedHours(s), LinkedHours(s));
    }
  }

  /** From agreeing totals, one request keeps them agreeing if and only if it spares the hours of linked logs and submits cleanly. */
  lemma StepKeepsTotalsIff(w: World, r: Request)
    requires Sound(w) && TotalsAgree(w.db)
    ensures TotalsAgree(Next(w, r).db) <==> KeepsTotals(w, r)
  {
    var now := w.clock + r.wait;
    assert r.op.SubmitSheet? ==> Execute(w.db, r.op, now) == Submit(w.db, r.op);
    hide Execute, Submit, MaySubmit, Sound, Changed, HoursAfter, TotalsAgree, CleanSubmission, TimerSound;
    if OnOneLog(r.op) {
      if Commits(w, r) {
        OneLogTotalsIff(w, r);
      } else {
        OneLogOutcome(w, r.op, now);
        if HasLog(w.db, r.op.tenantId, r.op.logId) {
          HoursAfterIsChanged(r.op, w.db.logs[r.op.logId], now);
        }
      }
    } else if r.op.SubmitSheet? {
      SubmitCommitsIff(w, r.op);
      if Commits(w, r) {
        SubmitTotalsIff(w, r);
      }
    } else if r.op.CreateLog? || r.op.StartTimer? {
      NewLogKeepsTotals(w, r);
    } else {
      DecisionKeepsTotals(w, r);
    }
  }

  // -------------------------------------------------------------- whole runs

  /** After every prefix of the run. */
  ghost predicate TotalsAlwaysAgree(run: seq<Request>) {
    TotalsAgree(After(run).db) && (run != [] ==> TotalsAlwaysAgree(run[..|run| - 1]))
  }

  ghost predicate AlwaysKeepsTotals(run: seq<Request>) {
    run != [] ==>
      var init := run[..|run| - 1];
      AlwaysKeepsTotals(init) && KeepsTotals(After(init), run[|run| - 1])
  }

  /** Totals agree all along a run if and only if every request keeps them. */
  lemma {:induction false} RunTotalsAgreeIff(run: seq<Request>)
    requires IsRun(run)
    ensures TotalsAlwaysAgree(run) <==> AlwaysKeepsTotals(run)
  {
    hide Next, KeepsTotals, Sound, Possible;
    if run == [] {
    } else {
      var init := run[..|run| - 1];
      RunTotalsAgreeIff(init);
      EveryRunIsSound(init);
      if TotalsAlwaysAgree(init) {
        StepKeepsTotalsIff(After(init), run[|run| - 1]);
      }
    }
  }

  // -------------------------------------------------------- orderly weeks

  predicate EqualOrApart(s: Sheet, op: Op)
    requires op.SubmitSheet?
  {
    (s.tenantId == op.tenantId && s.userId == op.userId) ==>
      if s.weekStart == op.weekStart then s.weekEnd == op.weekEnd
      else s.weekEnd < op.weekStart || op.weekEnd < s.weekStart
  }

  /** Weeks of one user are equal or apart, hold at most a page of logs, and linked logs keep their hours. */
  predicate Orderly(w: World, r: Request) {
    && (r.op.SubmitSheet? ==>
          && |IdsInRange(w.db.logs, r.op.tenantId, r.op.userId, r.op.weekStart, r.op.weekEnd)| <= PAGE_SIZE
          && forall s :: 0 <= s < |w.db.sheets| ==> EqualOrApart(w.db.sheets[s], r.op))
    && (r.op.PauseTimer? || r.op.StopTimer? || (r.op.UpdateLog? && r.op.edit.hours.Some?) ==>
          HasLog(w.db, r.op.tenantId, r.op.logId) ==> w.db.logs[r.op.logId].timesheetId.None?)
  }

  /** A linked log lies in its sheet's week. */
  ghost predicate InWeek(db: Db, i: nat)
    requires i < |db.logs|
  {
    db.logs[i].timesheetId.Some? ==>
      db.logs[i].timesheetId.value < |db.sheets| &&
      db.sheets[db.logs[i].timesheetId.value].weekStart <= db.logs[i].logDate <= db.sheets[db.logs[i].timesheetId.value].weekEnd
  }

  ghost predicate AllInWeek(db: Db) {
    forall i: nat :: i < |db.logs| ==> InWeek(db, i)
  }

  lemma FullPage(all: set<nat>, picked: set<nat>)
    requires picked <= all && |picked| == |all|
    ensures picked == all
  {
    assert |all - picked| == |all| - |picked|;
    assert all == picked + (all - picked);
  }

  lemma OrderlySubmissionIsClean(w: World, r: Request)
    requires Sound(w) && AllInWeek(w.db) && r.op.SubmitSheet? && Possible(w, r) && Orderly(w, r)
    ensures CleanSubmission(w.db, r.op)
  {
    var all := IdsInRange(w.db.logs, r.op.tenantId, r.op.userId, r.op.weekStart, r.op.weekEnd);
    FullPage(all, r.op.picked);
    forall i: nat | i < |w.db.logs| && w.db.logs[i].timesheetId.Some?
      ensures i in r.op.picked <==> w.db.logs[i].timesheetId == Some(SheetOf(w.db, r.op))
    {
      assert LogSound(w, i) && InWeek(w.db, i);
    }
  }

  lemma OrderlyKeepsTotals(w: World, r: Request)
    requires Sound(w) && AllInWeek(w.db) && Possible(w, r) && Orderly(w, r)
    ensures KeepsTotals(w, r)
  {
    if r.op.SubmitSheet? {
      OrderlySubmissionIsClean(w, r);
    }
    hide Execute;
  }

  /** Only a submission that picks the log changes its link; nothing changes its date. */
  lemma LinkAfter(l: Log, op: Op, sheetId: nat, now: int)
    ensures LogAfter(l, op, sheetId, now).logDate == l.logDate
    ensures LogAfter(l, op, sheetId, now).timesheetId == if op.SubmitSheet? && l.id in op.picked then Some(sheetId) else l.timesheetId
  {
    hide HoursOf, WholeSeconds;
  }

  lemma OrderlyKeepsWeek(w: World, r: Request, i: nat)
    requires Sound(w) && AllInWeek(w.db) && Possible(w, r) && Orderly(w, r) && i < |w.db.logs|
    ensures i < |Next(w, r).db.logs| && InWeek(Next(w, r).db, i)
  {
    hide Next, Commits, Sound, LogAfter, SheetOf, Possible, Orderly;
    assert InWeek(w.db, i);
    SheetsKeepWeeks(w, r);
    LogAfterRequest(w, r, i);
    var l, now := w.db.logs[i], w.clock + r.wait;
    if Commits(w, r) {
      LinkAfter(l, r.op, if r.op.SubmitSheet? then SheetOf(w.db, r.op) else 0, now);
      if r.op.SubmitSheet? && i in r.op.picked {
        PickedInWeek(w, r, i);
      }
    }
  }

  /** A picked log lies in the submitted week, which is its sheet's. */
  lemma PickedInWeek(w: World, r: Request, i: nat)
    requires r.op.SubmitSheet? && Possible(w, r) && Orderly(w, r) && i < |w.db.logs| && i in r.op.picked
    ensures
      var s := SheetOf(w.db, r.op);
      && r.op.weekStart <= w.db.logs[i].logDate <= r.op.weekEnd
      && (s < |w.db.sheets| ==> w.db.sheets[s].weekStart == r.op.weekStart && w.db.sheets[s].weekEnd == r.op.weekEnd)
      && s <= |w.db.sheets|
  {
    assert i in IdsInRange(w.db.logs, r.op.tenantId, r.op.userId, r.op.weekStart, r.op.weekEnd);
    var s := SheetOf(w.db, r.op);
    assert s < |w.db.sheets| ==> EqualOrApart(w.db.sheets[s], r.op);
  }

  lemma OrderlyKeepsWeeks(w: World, r: Request)
    requires Sound(w) && AllInWeek(w.db) && Possible(w, r) && Orderly(w, r)
    ensures AllInWeek(Next(w, r).db)
  {
    NewLogs(w, r);
    hide Execute, Possible, Orderly;
    var db' := Next(w, r).db;
    forall i: nat | i < |db'.logs| ensures InWeek(db', i) {
      if i < |w.db.logs| {
        OrderlyKeepsWeek(w, r, i);
      }
    }
  }

  /** Existing sheets keep their week. */
  ghost predicate WeeksKept(before: seq<Sheet>, after: seq<Sheet>) {
    && |before| <= |after|
    && forall s :: 0 <= s < |before| ==> after[s].weekStart == before[s].weekStart && after[s].weekEnd == before[s].weekEnd
  }

  lemma SubmissionKeepsWeeks(db: Db, op: Op)
    requires op.SubmitSheet? && Submit(db, op).Committed?
    ensures WeeksKept(db.sheets, Submit(db, op).db.sheets)
    ensures SheetOf(db, op) == |db.sheets| ==>
      var sheets := Submit(db, op).db.sheets;
      |sheets| == |db.sheets| + 1 && sheets[|db.sheets|].weekStart == op.weekStart && sheets[|db.sheets|].weekEnd == op.weekEnd
  {
  }

  lemma OtherwiseWeeksKept(w: World, op: Op, now: int)
    requires Sound(w) && w.clock <= now && !op.SubmitSheet? && Execute(w.db, op, now).Committed?
    ensures WeeksKept(w.db.sheets, Execute(w.db, op, now).db.sheets)
  {
    if OnOneLog(op) {
      OneLogOutcome(w, op, now);
      hide Execute;
    } else {
      hide Sound;
    }
  }

  lemma SheetsKeepWeeks(w: World, r: Request)
    requires Sound(w)
    ensures WeeksKept(w.db.sheets, Next(w, r).db.sheets)
    ensures r.op.SubmitSheet? && Commits(w, r) && SheetOf(w.db, r.op) == |w.db.sheets| ==>
      |Next(w, r).db.sheets| == |w.db.sheets| + 1
      && Next(w, r).db.sheets[|w.db.sheets|].weekStart == r.op.weekStart && Next(w, r).db.sheets[|w.db.sheets|].weekEnd == r.op.weekEnd
  {
    assert r.op.SubmitSheet? ==> Execute(w.db, r.op, w.clock + r.wait) == Submit(w.db, r.op);
    hide Execute, Submit, SheetOf, Sound, FindWeek;
    if r.op.SubmitSheet? {
      if Commits(w, r) {
        SubmissionKeepsWeeks(w.db, r.op);
      }
    } else {
      if Commits(w, r) {
        OtherwiseWeeksKept(w, r.op, w.clock + r.wait);
      }
    }
  }

  ghost predicate OrderlyRun(run: seq<Request>) {
    run != [] ==>
      var init := run[..|run| - 1];
      OrderlyRun(init) && Orderly(After(init), run[|run| - 1])
  }

  /** In an orderly run every timesheet shows the sum of its logs' hours, across rejections, resubmissions and single approvals. */
  lemma {:induction false} OrderlyTotalsAgree(run: seq<Request>)
    requires IsRun(run) && OrderlyRun(run)
    ensures TotalsAgree(After(run).db) && AllInWeek(After(run).db)
  {
    hide Next, Possible, Orderly, KeepsTotals, Sound;
    if run == [] {
    } else {
      var init := run[..|run| - 1];
      OrderlyTotalsAgree(init);
      EveryRunIsSound(init);
      OrderlyKeepsTotals(After(init), run[|run| - 1]);
      StepKeepsTotalsIff(After(init), run[|run| - 1]);
      OrderlyKeepsWeeks(After(init), run[|run| - 1]);
    }
  }

  // ---------------------------------------------------------------- the gap

  function NewEntry(): NewLog {
    NewLog("t", "u", "p", Some(Project(None)), None, 0, "", true, None)
  }

  function Logged(hours: real, sheet: Option<nat>): Log {
    FreshLog(START.db, NewEntry(), hours, None).(timesheetId := sheet)
  }

  const LOG_EIGHT := Request(0, CreateLog(NewEntry(), 8.0))
  const SUBMIT_WEEK := Request(0, SubmitSheet("t", "u", 0, 6, {0}))
  const EDIT_TO_FOUR := Request(0, UpdateLog("t", 0, Edit(Some(4.0), None, None, None)))

  function OneLogOneSheet(hours: real): Db {
    Db([Logged(hours, Some(0))], [Sheet(0, "t", "u", 0, 6, 8.0, Submitted, None, "")])
  }

  lemma EightLogged()
    ensures Possible(START, LOG_EIGHT) && Next(START, LOG_EIGHT) == World(Db([Logged(8.0, None)], []), 0, [])
  {
    NothingLogged();
    assert Execute(START.db, LOG_EIGHT.op, 0) == Create(START.db, NewEntry(), 8.0);
    hide Execute, Create;
  }

  lemma NothingLogged()
    ensures Create(START.db, NewEntry(), 8.0) == Committed(Db([Logged(8.0, None)], []), [])
  {
    assert Sum(START.db.logs, DayHours("t", "u", 0)) == 0.0;
    hide Sum, DayHours;
    assert Readable(Logged(8.0, None));
  }

  lemma WeekSubmitted(w: World)
    requires w.db == Db([Logged(8.0, None)], [])
    ensures Possible(w, SUBMIT_WEEK) && Next(w, SUBMIT_WEEK).db == OneLogOneSheet(8.0)
  {
    var logs := w.db.logs;
    assert IdsInRange(logs, "t", "u", 0, 6) == {0};
    assert Sum(logs, PickedHours({0})) == 8.0 by {
      assert logs[..0] == [];
    }
    assert LinkedRows(logs, {0}, 0) == [Logged(8.0, Some(0))];
  }

  lemma HoursEdited(w: World)
    requires w.db == OneLogOneSheet(8.0)
    ensures Possible(w, EDIT_TO_FOUR) && Next(w, EDIT_TO_FOUR).db == OneLogOneSheet(4.0)
  {
  }

  /** Eight hours are logged and submitted, then edited down to four: the sheet still shows eight. */
  lemma EditBreaksTotal()
    ensures
      var run := [LOG_EIGHT, SUBMIT_WEEK, EDIT_TO_FOUR];
      IsRun(run) && |After(run).db.sheets| == 1 && After(run).db.sheets[0].totalHours == 8.0 && !SheetAgrees(After(run).db, 0)
  {
    hide Next, Possible;
    var run := [LOG_EIGHT, SUBMIT_WEEK, EDIT_TO_FOUR];
    assert run[..2] == [LOG_EIGHT, SUBMIT_WEEK] && run[..2][..1] == [LOG_EIGHT] && [LOG_EIGHT][..0] == [];
    assert After([LOG_EIGHT]) == Next(START, LOG_EIGHT);
    assert After(run[..2]) == Next(After([LOG_EIGHT]), SUBMIT_WEEK);
    EightLogged();
    WeekSubmitted(After([LOG_EIGHT]));
    HoursEdited(After(run[..2]));
    assert IsRun([]) && IsRun([LOG_EIGHT]) && IsRun(run[..2]);
    var logs := After(run).db.logs;
    assert logs[..0] == [];
  }
}
