/** The daily limit of 24 hours: checked when a log is created, and what later requests do to it. */
module DailyCap {
  import opened Wrappers
  import opened Tables
  import opened Workflow
  import opened WorkflowInvariants

  function DayTotal(db: Db, tenantId: string, userId: string, day: int): real {
    Sum(db.logs, DayHours(tenantId, userId, day))
  }

  ghost predicate WithinCap(db: Db) {
    forall t: string, u: string, day: int {:trigger DayTotal(db, t, u, day)} :: DayTotal(db, t, u, day) <= MAX_DAILY_HOURS
  }

  /** An edit, pause or stop that lifts its log's day over the limit: the code checks the entry alone. */
  predicate LiftsOver(w: World, r: Request) {
    && OnOneLog(r.op) && HasLog(w.db, r.op.tenantId, r.op.logId)
    && var l := w.db.logs[r.op.logId];
    DayTotal(w.db, l.tenantId, l.userId, l.logDate) - l.hours + HoursAfter(r.op, l, w.clock + r.wait) > MAX_DAILY_HOURS
  }

  // ---------------------------------------------------------------- one step

  lemma ReplacedLogDays(db: Db, i: nat, l: Log)
    requires i < |db.logs| && WithinCap(db)
    requires l.tenantId == db.logs[i].tenantId && l.userId == db.logs[i].userId && l.logDate == db.logs[i].logDate
    ensures WithinCap(db.(logs := db.logs[i := l])) <==>
      DayTotal(db, l.tenantId, l.userId, l.logDate) - db.logs[i].hours + l.hours <= MAX_DAILY_HOURS
  {
    var db' := db.(logs := db.logs[i := l]);
    forall t: string, u: string, day: int {:trigger DayTotal(db', t, u, day)}
      ensures DayTotal(db', t, u, day)
           == DayTotal(db, t, u, day) + if InRange(l, t, u, day, day) then l.hours - db.logs[i].hours else 0.0
      ensures DayTotal(db, t, u, day) <= MAX_DAILY_HOURS
    {
      SumUpdate(db.logs, i, l, DayHours(t, u, day));
    }
    hide DayTotal;
    assert InRange(l, l.tenantId, l.userId, l.logDate, l.logDate);
    assert DayTotal(db', l.tenantId, l.userId, l.logDate)
        == DayTotal(db, l.tenantId, l.userId, l.logDate) + l.hours - db.logs[i].hours;
  }

  lemma ChangedKeepsDay(op: Op, l: Log, now: int)
    requires Changed(op, l, now).Some?
    ensures
      var l' := Changed(op, l, now).value;
      l'.tenantId == l.tenantId && l'.userId == l.userId && l'.logDate == l.logDate
  {
    hide HoursOf, WholeSeconds;
  }

  lemma CapHolds(db: Db, l: Log)
    requires WithinCap(db)
    ensures DayTotal(db, l.tenantId, l.userId, l.logDate) <= MAX_DAILY_HOURS
  {
  }

  lemma OneLogCapIff(w: World, r: Request)
    requires Sound(w) && WithinCap(w.db) && OnOneLog(r.op)
    ensures WithinCap(Next(w, r).db) <==> !LiftsOver(w, r)
  {
    hide Execute, Changed, HoursAfter, Sound, TimerSound, DayTotal, WithinCap;
    var now := w.clock + r.wait;
    OneLogOutcome(w, r.op, now);
    if HasLog(w.db, r.op.tenantId, r.op.logId) {
      var l := w.db.logs[r.op.logId];
      HoursAfterIsChanged(r.op, l, now);
      CapHolds(w.db, l);
      if Changed(r.op, l, now).Some? {
        ChangedKeepsDay(r.op, l, now);
        ReplacedLogDays(w.db, r.op.logId, Changed(r.op, l, now).value);
      }
    }
  }

  lemma NewLogDays(db: Db, l: Log)
    requires WithinCap(db) && DayTotal(db, l.tenantId, l.userId, l.logDate) + l.hours <= MAX_DAILY_HOURS
    ensures WithinCap(db.(logs := db.logs + [l]))
  {
    var db' := db.(logs := db.logs + [l]);
    forall t: string, u: string, day: int {:trigger DayTotal(db', t, u, day)} ensures DayTotal(db', t, u, day) <= MAX_DAILY_HOURS {
      assert DayTotal(db, t, u, day) <= MAX_DAILY_HOURS;
      SumAppend(db.logs, l, DayHours(t, u, day));
    }
  }

  lemma NewLogKeepsCap(w: World, r: Request)
    requires WithinCap(w.db) && (r.op.CreateLog? || r.op.StartTimer?)
    ensures WithinCap(Next(w, r).db)
  {
    var op := r.op;
    if op.CreateLog? && Commits(w, r) {
      NewLogDays(w.db, FreshLog(w.db, op.request, op.hours, None));
    } else if op.StartTimer? && Commits(w, r) {
      var l := FreshLog(w.db, op.request, 0.0, Some(w.clock + r.wait));
      assert DayTotal(w.db, l.tenantId, l.userId, l.logDate) <= MAX_DAILY_HOURS;
      NewLogDays(w.db, l);
    }
    hide WithinCap, Sum;
  }

  /** Same user, day and hours, log by log. */
  predicate SameDays(before: seq<Log>, after: seq<Log>) {
    && |before| == |after|
    && forall i :: 0 <= i < |before| ==>
      && after[i].tenantId == before[i].tenantId && after[i].userId == before[i].userId
      && after[i].logDate == before[i].logDate && after[i].hours == before[i].hours
  }

  lemma SameDaysKeepCap(db: Db, db': Db)
    requires WithinCap(db) && SameDays(db.logs, db'.logs)
    ensures WithinCap(db')
  {
    forall t: string, u: string, day: int {:trigger DayTotal(db', t, u, day)} ensures DayTotal(db', t, u, day) <= MAX_DAILY_HOURS {
      assert DayTotal(db, t, u, day) <= MAX_DAILY_HOURS;
      SumSame(db'.logs, db.logs, DayHours(t, u, day), DayHours(t, u, day));
    }
  }

  lemma LinkedSameDays(logs: seq<Log>, picked: set<nat>, sheetId: nat)
    ensures SameDays(logs, LinkedRows(logs, picked, sheetId))
  {
  }

  lemma CascadedSameDays(logs: seq<Log>, tenantId: string, sheetId: nat, status: ApprovalStatus)
    ensures SameDays(logs, CascadedRows(logs, tenantId, sheetId, status))
  {
  }

  lemma SheetStepKeepsCap(w: World, r: Request)
    requires Sound(w) && WithinCap(w.db) && (r.op.SubmitSheet? || r.op.ApproveSheet? || r.op.RejectSheet?)
    ensures WithinCap(Next(w, r).db)
  {
    hide Submit, SheetOf, WithinCap, SameDays, ApproveSheetNow, RejectSheetNow;
    var now := w.clock + r.wait;
    if Commits(w, r) {
      if r.op.SubmitSheet? {
        assert Execute(w.db, r.op, now) == Submit(w.db, r.op);
        SubmissionEffect(w.db, r.op);
        LinkedSameDays(w.db.logs, r.op.picked, SheetOf(w.db, r.op));
      } else {
        DecisionEffect(w.db, r.op, now);
        CascadedSameDays(w.db.logs, r.op.tenantId, r.op.sheetId, if r.op.ApproveSheet? then Approved else Rejected);
      }
      SameDaysKeepCap(w.db, Next(w, r).db);
    }
  }

  /** From days within the limit a request keeps every user's every day within it if and only if it does not lift one over. */
  lemma StepKeepsCapIff(w: World, r: Request)
    requires Sound(w) && WithinCap(w.db)
    ensures WithinCap(Next(w, r).db) <==> !LiftsOver(w, r)
  {
    hide WithinCap, Next, Sound, DayTotal;
    if OnOneLog(r.op) {
      OneLogCapIff(w, r);
    } else if r.op.CreateLog? || r.op.StartTimer? {
      NewLogKeepsCap(w, r);
    } else {
      SheetStepKeepsCap(w, r);
    }
  }

  // -------------------------------------------------------------- whole runs

  /** After every prefix of the run. */
  ghost predicate AlwaysWithinCap(run: seq<Request>) {
    WithinCap(After(run).db) && (run != [] ==> AlwaysWithinCap(run[..|run| - 1]))
  }

  ghost predicate NeverLiftsOver(run: seq<Request>) {
    run != [] ==>
      var init := run[..|run| - 1];
      NeverLiftsOver(init) && !LiftsOver(After(init), run[|run| - 1])
  }

  lemma NothingLogged()
    ensures WithinCap(START.db)
  {
  }

  /** Every day stays within 24 hours all along a run if and only if no request lifts one over. */
  lemma {:induction false} RunWithinCapIff(run: seq<Request>)
    requires IsRun(run)
    ensures AlwaysWithinCap(run) <==> NeverLiftsOver(run)
  {
    hide Next, LiftsOver, WithinCap, Sound, Possible;
    if run == [] {
      NothingLogged();
    } else {
      var init := run[..|run| - 1];
      RunWithinCapIff(init);
      EveryRunIsSound(init);
      if AlwaysWithinCap(init) {
        StepKeepsCapIff(After(init), run[|run| - 1]);
      }
    }
  }

  // ---------------------------------------------------------------- racing

  datatype Creation = Creation(request: NewLog, hours: real)

  /** The day's sum is read, and the entry passes, before any of the others is added. */
  predicate PassesAlone(db: Db, c: Creation) {
    Create(db, c.request, c.hours).Committed?
  }

  predicate HaveProjects(batch: seq<Creation>) {
    forall i :: 0 <= i < |batch| ==> batch[i].request.project.Some?
  }

  predicate AllPass(db: Db, batch: seq<Creation>): (pass: bool)
    ensures pass ==> HaveProjects(batch)
  {
    forall i :: 0 <= i < |batch| ==> PassesAlone(db, batch[i])
  }

  function Added(db: Db, c: Creation): Db
    requires c.request.project.Some?
  {
    db.(logs := db.logs + [FreshLog(db, c.request, c.hours, None)])
  }

  function AllAdded(db: Db, batch: seq<Creation>): Db
    requires HaveProjects(batch)
  {
    if batch == [] then db else Added(AllAdded(db, batch[..|batch| - 1]), batch[|batch| - 1])
  }

  /** One after another, each checked against what the ones before it left. */
  predicate PassInTurn(db: Db, batch: seq<Creation>)
    requires HaveProjects(batch)
  {
    batch != [] ==>
      var init := batch[..|batch| - 1];
      PassInTurn(db, init) && PassesAlone(AllAdded(db, init), batch[|batch| - 1])
  }

  /** Whatever else was added, an entry that passed once is refused for its day's total only. */
  lemma PassesIff(db: Db, later: Db, c: Creation)
    requires PassesAlone(db, c)
    ensures c.request.project.Some? && c.hours > 0.0
    ensures PassesAlone(later, c) <==> DayTotal(later, c.request.tenantId, c.request.userId, c.request.logDate) + c.hours <= MAX_DAILY_HOURS
  {
  }

  lemma AddedIff(db: Db, c: Creation)
    requires c.request.project.Some? && c.hours > 0.0
    ensures WithinCap(Added(db, c)) <==>
      WithinCap(db) && DayTotal(db, c.request.tenantId, c.request.userId, c.request.logDate) + c.hours <= MAX_DAILY_HOURS
  {
    var l := FreshLog(db, c.request, c.hours, None);
    forall t: string, u: string, day: int {:trigger DayTotal(Added(db, c), t, u, day)} {:trigger DayTotal(db, t, u, day)}
      ensures DayTotal(Added(db, c), t, u, day) == DayTotal(db, t, u, day) + if InRange(l, t, u, day, day) then c.hours else 0.0
    {
      SumAppend(db.logs, l, DayHours(t, u, day));
    }
    hide DayTotal;
    assert InRange(l, c.request.tenantId, c.request.userId, c.request.logDate, c.request.logDate);
  }

  /**
   Creations that all read their day's sum before any of them adds its entry keep the
   limit if and only if they would all have passed one after another.
   */
  lemma {:induction false} RacingCreatesIff(db: Db, batch: seq<Creation>)
    requires WithinCap(db) && AllPass(db, batch)
    ensures WithinCap(AllAdded(db, batch)) <==> PassInTurn(db, batch)
  {
    hide WithinCap, DayTotal, Added, Create;
    if batch == [] {
    } else {
      var n := |batch| - 1;
      RacingCreatesIff(db, batch[..n]);
      PassesIff(db, AllAdded(db, batch[..n]), batch[n]);
      AddedIff(AllAdded(db, batch[..n]), batch[n]);
    }
  }

  // ---------------------------------------------------------------- the gap

  function Entry(id: nat, hours: real): Log {
    Log(id, "t", "u", "p", None, hours, 0, "", true, None, None, None, Idle, 0, PendingManager, None, None, None, None)
  }

  function Asked(hours: real): Request {
    Request(0, CreateLog(NewLog("t", "u", "p", Some(Project(None)), None, 0, "", true, None), hours))
  }

  const EDIT_TO_FULL := Request(0, UpdateLog("t", 1, Edit(Some(24.0), None, None, None)))

  lemma EntryAdded(w: World, hours: real)
    requires DayTotal(w.db, "t", "u", 0) + hours <= MAX_DAILY_HOURS && 0.0 < hours <= MAX_DAILY_HOURS
    ensures Next(w, Asked(hours)).db == w.db.(logs := w.db.logs + [Entry(|w.db.logs|, hours)])
    ensures Possible(w, Asked(hours))
    ensures DayTotal(Next(w, Asked(hours)).db, "t", "u", 0) == DayTotal(w.db, "t", "u", 0) + hours
  {
    var op := Asked(hours).op;
    assert DayTotal(w.db, "t", "u", 0) == Sum(w.db.logs, DayHours("t", "u", 0));
    assert Execute(w.db, op, w.clock) == Create(w.db, op.request, hours);
    assert FreshLog(w.db, op.request, hours, None) == Entry(|w.db.logs|, hours);
    SumAppend(w.db.logs, Entry(|w.db.logs|, hours), DayHours("t", "u", 0));
    hide Sum, Execute;
    assert DayHours("t", "u", 0)(Entry(|w.db.logs|, hours)) == hours;
  }

  lemma EntryEdited(w: World)
    requires w.db.logs == [Entry(0, 20.0), Entry(1, 4.0)] && DayTotal(w.db, "t", "u", 0) == 24.0
    ensures Possible(w, EDIT_TO_FULL) && DayTotal(Next(w, EDIT_TO_FULL).db, "t", "u", 0) == 44.0
  {
    SumUpdate(w.db.logs, 1, Entry(1, 24.0), DayHours("t", "u", 0));
    assert Next(w, EDIT_TO_FULL).db.logs == w.db.logs[1 := Entry(1, 24.0)];
    hide Sum;
  }

  lemma TwoEntries()
    ensures
      var w := After([Asked(20.0), Asked(4.0)]);
      IsRun([Asked(20.0), Asked(4.0)]) && w.db.logs == [Entry(0, 20.0), Entry(1, 4.0)] && DayTotal(w.db, "t", "u", 0) == 24.0
  {
    hide Next, Possible, DayTotal, Entry, Asked;
    var a, b := Asked(20.0), Asked(4.0);
    assert [a, b][..1] == [a] && [a][..0] == [];
    assert After([a]) == Next(START, a) && After([a, b]) == Next(After([a]), b);
    NothingYet();
    EntryAdded(START, 20.0);
    EntryAdded(After([a]), 4.0);
    assert IsRun([]) && IsRun([a]);
  }

  /** Twenty hours and four are logged for one day, then the four are edited to twenty-four: the day has forty-four. */
  lemma EditLiftsOver()
    ensures
      var run := [Asked(20.0), Asked(4.0), EDIT_TO_FULL];
      IsRun(run) && DayTotal(After(run).db, "t", "u", 0) == 44.0
  {
    hide Next, Possible, DayTotal, Entry, Asked;
    var run := [Asked(20.0), Asked(4.0), EDIT_TO_FULL];
    assert run[..2] == [Asked(20.0), Asked(4.0)];
    assert After(run) == Next(After(run[..2]), EDIT_TO_FULL);
    TwoEntries();
    EntryEdited(After(run[..2]));
  }

  lemma NothingYet()
    ensures DayTotal(START.db, "t", "u", 0) == 0.0
  {
  }
}
