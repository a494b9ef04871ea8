/**
 Time logs and timesheets: the entity rules, and each use case as one
 transaction that either commits a new database and attempts events, or
 refuses and leaves everything as it was.

 Times are microseconds, dates are day numbers, ids are row numbers.
 */
module Workflow {
  import opened Wrappers
  import opened Numbers
  import opened Tables

  const MAX_DAILY_HOURS := 24.0
  const PAGE_SIZE := 50
  const SECOND := 1_000_000

  datatype TimerStatus = Idle | Running | Paused | Completed
  datatype ApprovalStatus = Draft | PendingManager | Approved | Rejected
  datatype SheetStatus = DraftSheet | Submitted | ApprovedSheet | RejectedSheet

  datatype Log = Log(
    id: nat,
    tenantId: string,
    userId: string,
    projectId: string,
    taskId: Option<string>,
    hours: real,
    logDate: int,
    description: string,
    billable: bool,
    hourlyRate: Option<real>,
    timerStartedAt: Option<int>,
    timerStoppedAt: Option<int>,
    timerStatus: TimerStatus,
    accumulatedSeconds: int,
    approvalStatus: ApprovalStatus,
    timesheetId: Option<nat>,
    aiCategory: Option<string>,
    aiQualityScore: Option<int>,
    aiSuggestion: Option<string>)

  datatype Sheet = Sheet(
    id: nat,
    tenantId: string,
    userId: string,
    weekStart: int,
    weekEnd: int,
    totalHours: real,
    status: SheetStatus,
    approvedBy: Option<string>,
    rejectionReason: string)

  datatype Db = Db(logs: seq<Log>, sheets: seq<Sheet>)

  datatype Event =
    | TimerStarted(logId: nat)
    | TimerPaused(logId: nat, accumulatedSeconds: int)
    | TimerResumed(logId: nat)
    | TimeLogApproved(
        logId: nat, tenantId: string, userId: string, projectId: string, hours: real, logDate: int, description: string,
        billable: bool, hourlyRate: Option<real>)
    | TimeLogRejected(logId: nat)
    | TimesheetSubmitted(sheetId: nat, totalHours: real)
    | TimesheetApproved(sheetId: nat)
    | TimesheetRejected(sheetId: nat)

  datatype Error = NotFound | RuleViolation | InvalidTransition | MultipleSheets

  datatype Outcome = Committed(db: Db, events: seq<Event>) | Refused(error: Error)

  /** What a request says about a new log; `project` is the lookup of its project. */
  datatype NewLog = NewLog(
    tenantId: string, userId: string, projectId: string, project: Option<Project>, taskId: Option<string>,
    logDate: int, description: string, billable: bool, hourlyRate: Option<real>)

  datatype Project = Project(defaultHourlyRate: Option<real>)

  datatype Edit = Edit(hours: Option<real>, description: Option<string>, billable: Option<bool>, hourlyRate: Option<real>)

  /** `picked` are the ids the page query returned: SQL leaves the order within one date open. */
  datatype Op =
    | CreateLog(request: NewLog, hours: real)
    | StartTimer(request: NewLog)
    | PauseTimer(tenantId: string, logId: nat)
    | ResumeTimer(tenantId: string, logId: nat)
    | StopTimer(tenantId: string, logId: nat)
    | UpdateLog(tenantId: string, logId: nat, edit: Edit)
    | ApproveLog(tenantId: string, logId: nat)
    | RejectLog(tenantId: string, logId: nat)
    | SubmitSheet(tenantId: string, userId: string, weekStart: int, weekEnd: int, picked: set<nat>)
    | ApproveSheet(tenantId: string, sheetId: nat, approver: string)
    | RejectSheet(tenantId: string, sheetId: nat, approver: string, reason: string)

  // ------------------------------------------------------------ entity rules

  predicate TimerBased(l: Log) {
    l.timerStartedAt.Some? || l.timerStatus != Idle
  }

  /** The constructor's validation; it runs again whenever a row is read back. */
  predicate Readable(l: Log) {
    if TimerBased(l) then 0.0 <= l.hours else 0.0 < l.hours <= MAX_DAILY_HOURS
  }

  /** `int(total_seconds())`: truncation toward zero. */
  function WholeSeconds(microseconds: int): int {
    if microseconds >= 0 then microseconds / SECOND else -((-microseconds) / SECOND)
  }

  function HoursOf(accumulatedSeconds: int): real {
    Round2(accumulatedSeconds as real / 3600.0)
  }

  function TimerPausedAt(l: Log, now: int): Option<Log> {
    if l.timerStatus != Running || l.timerStartedAt.None? then None
    else
      var acc := l.accumulatedSeconds + WholeSeconds(now - l.timerStartedAt.value);
      Some(l.(accumulatedSeconds := acc, timerStartedAt := None, timerStatus := Paused, hours := HoursOf(acc)))
  }

  function TimerResumedAt(l: Log, now: int): Option<Log> {
    if l.timerStatus != Paused then None
    else Some(l.(timerStartedAt := Some(now), timerStatus := Running))
  }

  function TimerStoppedAt(l: Log, now: int): Option<Log> {
    if l.timerStatus == Completed || l.timerStatus == Idle then None
    else
      var last := if l.timerStatus == Running && l.timerStartedAt.Some? then WholeSeconds(now - l.timerStartedAt.value) else 0;
      var acc := l.accumulatedSeconds + last;
      Some(l.(accumulatedSeconds := acc, timerStoppedAt := Some(now), timerStatus := Completed, hours := HoursOf(acc),
              approvalStatus := PendingManager))
  }

  function Edited(l: Log, e: Edit): Option<Log> {
    if e.hours.Some? && (e.hours.value <= 0.0 || e.hours.value > MAX_DAILY_HOURS) then None
    else Some(l.(hours := e.hours.GetOr(l.hours), description := e.description.GetOr(l.description),
                 billable := e.billable.GetOr(l.billable),
                 hourlyRate := if e.hourlyRate.Some? then e.hourlyRate else l.hourlyRate))
  }

  predicate Approvable(l: Log) {
    l.approvalStatus == PendingManager || l.approvalStatus == Rejected
  }

  predicate Rejectable(l: Log) {
    l.approvalStatus == PendingManager
  }

  function LogApproved(l: Log): Option<Log> {
    if Approvable(l) then Some(l.(approvalStatus := Approved)) else None
  }

  function LogRejected(l: Log): Option<Log> {
    if Rejectable(l) then Some(l.(approvalStatus := Rejected)) else None
  }

  // --------------------------------------------------------------- queries

  predicate HasLog(db: Db, tenantId: string, logId: nat) {
    logId < |db.logs| && db.logs[logId].tenantId == tenantId
  }

  predicate HasSheet(db: Db, tenantId: string, sheetId: nat) {
    sheetId < |db.sheets| && db.sheets[sheetId].tenantId == tenantId
  }

  predicate IsWeekOf(s: Sheet, tenantId: string, userId: string, weekStart: int) {
    s.tenantId == tenantId && s.userId == userId && s.weekStart == weekStart
  }

  function FindWeek(sheets: seq<Sheet>, tenantId: string, userId: string, weekStart: int): (i: Option<nat>)
    ensures i.Some? ==> i.value < |sheets| && IsWeekOf(sheets[i.value], tenantId, userId, weekStart)
    ensures i.None? ==> forall j :: 0 <= j < |sheets| ==> !IsWeekOf(sheets[j], tenantId, userId, weekStart)
  {
    if sheets == [] then None
    else
      var n := |sheets| - 1;
      if IsWeekOf(sheets[n], tenantId, userId, weekStart) then Some(n)
      else FindWeek(sheets[..n], tenantId, userId, weekStart)
  }

  predicate OneSheetPerWeek(sheets: seq<Sheet>) {
    forall i, j :: 0 <= i < j < |sheets| ==> !IsWeekOf(sheets[j], sheets[i].tenantId, sheets[i].userId, sheets[i].weekStart)
  }

  predicate InRange(l: Log, tenantId: string, userId: string, first: int, last: int) {
    l.tenantId == tenantId && l.userId == userId && first <= l.logDate <= last
  }

  function IdsInRange(logs: seq<Log>, tenantId: string, userId: string, first: int, last: int): set<nat> {
    set i: nat | i < |logs| && InRange(logs[i], tenantId, userId, first, last)
  }

  /** `list_by_user` with its default page: at most 50 logs, the latest dates first. */
  predicate IsPage(logs: seq<Log>, tenantId: string, userId: string, first: int, last: int, picked: set<nat>) {
    var all := IdsInRange(logs, tenantId, userId, first, last);
    && picked <= all
    && |picked| == (if |all| <= PAGE_SIZE then |all| else PAGE_SIZE)
    && (forall i, j :: i in picked && j in all && j !in picked ==> logs[j].logDate <= logs[i].logDate)
  }

  predicate LinkedTo(l: Log, tenantId: string, sheetId: nat) {
    l.tenantId == tenantId && l.timesheetId == Some(sheetId)
  }

  function PickedHours(picked: set<nat>): Log -> real {
    (l: Log) => if l.id in picked then l.hours else 0.0
  }

  function DayHours(tenantId: string, userId: string, day: int): Log -> real {
    (l: Log) => if InRange(l, tenantId, userId, day, day) then l.hours else 0.0
  }

  // ------------------------------------------------------------- use cases

  function Rate(r: NewLog): Option<real>
    requires r.project.Some?
  {
    if r.hourlyRate.Some? && r.hourlyRate.value != 0.0 then r.hourlyRate else r.project.value.defaultHourlyRate
  }

  function FreshLog(db: Db, r: NewLog, hours: real, startedAt: Option<int>): Log
    requires r.project.Some?
  {
    Log(|db.logs|, r.tenantId, r.userId, r.projectId, r.taskId, hours, r.logDate, r.description, r.billable, Rate(r),
        startedAt, None, if startedAt.Some? then Running else Idle, 0,
        if startedAt.Some? then Draft else PendingManager, None, None, None, None)
  }

  function Create(db: Db, r: NewLog, hours: real): Outcome {
    if r.project.None? then Refused(NotFound)
    else if Sum(db.logs, DayHours(r.tenantId, r.userId, r.logDate)) + hours > MAX_DAILY_HOURS then Refused(RuleViolation)
    else
      var l := FreshLog(db, r, hours, None);
      if Readable(l) then Committed(db.(logs := db.logs + [l]), []) else Refused(RuleViolation)
  }

  function Start(db: Db, r: NewLog, now: int): Outcome {
    if r.project.None? then Refused(NotFound)
    else Committed(db.(logs := db.logs + [FreshLog(db, r, 0.0, Some(now))]), [TimerStarted(|db.logs|)])
  }

  function OnLog(db: Db, tenantId: string, logId: nat, changed: Log -> Option<Log>, event: Log -> seq<Event>): Outcome {
    if !HasLog(db, tenantId, logId) then Refused(NotFound)
    else if !Readable(db.logs[logId]) then Refused(RuleViolation)
    else match changed(db.logs[logId])
      case None => Refused(RuleViolation)
      case Some(l) =>
        if Readable(l) then Committed(db.(logs := db.logs[logId := l]), event(l)) else Refused(RuleViolation)
  }

  /** Submit: total the page, put the week's sheet up for approval, link the page to it. */
  function Linked(l: Log, picked: set<nat>, sheetId: nat): Log {
    if l.id in picked then l.(timesheetId := Some(sheetId), approvalStatus := PendingManager) else l
  }

  function LinkedRows(logs: seq<Log>, picked: set<nat>, sheetId: nat): seq<Log> {
    seq(|logs|, i requires 0 <= i < |logs| => Linked(logs[i], picked, sheetId))
  }

  function Resubmitted(s: Sheet, totalHours: real): Sheet {
    if s.status == RejectedSheet
    then s.(totalHours := totalHours, status := Submitted, approvedBy := None, rejectionReason := "")
    else s.(totalHours := totalHours, status := Submitted)
  }

  /** The sheet a submission goes to: the week's own, or the next new one. */
  function SheetOf(db: Db, op: Op): nat
    requires op.SubmitSheet?
  {
    match FindWeek(db.sheets, op.tenantId, op.userId, op.weekStart)
    case Some(i) => i
    case None => |db.sheets|
  }

  function SubmittedSheets(db: Db, op: Op, total: real): seq<Sheet>
    requires op.SubmitSheet?
  {
    var sheetId := SheetOf(db, op);
    if sheetId < |db.sheets| then db.sheets[sheetId := Resubmitted(db.sheets[sheetId], total)]
    else db.sheets + [Sheet(sheetId, op.tenantId, op.userId, op.weekStart, op.weekEnd, total, Submitted, None, "")]
  }

  function Submit(db: Db, op: Op): Outcome
    requires op.SubmitSheet?
  {
    var existing := FindWeek(db.sheets, op.tenantId, op.userId, op.weekStart);
    if exists i, j :: 0 <= i < j < |db.sheets| && IsWeekOf(db.sheets[i], op.tenantId, op.userId, op.weekStart)
                      && IsWeekOf(db.sheets[j], op.tenantId, op.userId, op.weekStart)
    then Refused(MultipleSheets)
    else if existing.Some? && db.sheets[existing.value].status != DraftSheet && db.sheets[existing.value].status != RejectedSheet
    then Refused(RuleViolation)
    else if exists i :: 0 <= i < |db.logs| && i in op.picked && !Readable(db.logs[i]) then Refused(RuleViolation)
    else
      var total := Sum(db.logs, PickedHours(op.picked));
      var sheetId := SheetOf(db, op);
      Committed(Db(LinkedRows(db.logs, op.picked, sheetId), SubmittedSheets(db, op, total)),
                [TimesheetSubmitted(sheetId, total)])
  }

  /** The cascade over the linked logs of a sheet. */
  function Cascaded(l: Log, tenantId: string, sheetId: nat, status: ApprovalStatus): Log {
    if LinkedTo(l, tenantId, sheetId) then l.(approvalStatus := status) else l
  }

  function CascadedRows(logs: seq<Log>, tenantId: string, sheetId: nat, status: ApprovalStatus): seq<Log> {
    seq(|logs|, i requires 0 <= i < |logs| => Cascaded(logs[i], tenantId, sheetId, status))
  }

  function EventsFor(logs: seq<Log>, tenantId: string, sheetId: nat, event: Log -> Event): seq<Event> {
    if logs == [] then []
    else
      var n := |logs| - 1;
      EventsFor(logs[..n], tenantId, sheetId, event) + if LinkedTo(logs[n], tenantId, sheetId) then [event(logs[n])] else []
  }

  /** What downstream services learn of an approved log. */
  function Announcement(l: Log): Event {
    TimeLogApproved(l.id, l.tenantId, l.userId, l.projectId, l.hours, l.logDate, l.description, l.billable, l.hourlyRate)
  }

  function ApprovedEvent(): Log -> Event {
    (l: Log) => Announcement(l)
  }

  function RejectedEvent(): Log -> Event {
    (l: Log) => TimeLogRejected(l.id)
  }

  /** All linked logs must allow the change, or the whole transaction rolls back. */
  predicate AllLinked(db: Db, tenantId: string, sheetId: nat, allowed: Log -> bool) {
    forall i :: 0 <= i < |db.logs| && LinkedTo(db.logs[i], tenantId, sheetId) ==> allowed(db.logs[i])
  }

  function CanApprove(): Log -> bool {
    (l: Log) => Readable(l) && Approvable(l)
  }

  function CanReject(): Log -> bool {
    (l: Log) => Readable(l) && Rejectable(l)
  }

  function ApproveSheetNow(db: Db, tenantId: string, sheetId: nat, approver: string): Outcome {
    if !HasSheet(db, tenantId, sheetId) then Refused(NotFound)
    else if db.sheets[sheetId].status != Submitted then Refused(InvalidTransition)
    else if !AllLinked(db, tenantId, sheetId, CanApprove()) then Refused(RuleViolation)
    else
      Committed(
        Db(CascadedRows(db.logs, tenantId, sheetId, Approved),
           db.sheets[sheetId := db.sheets[sheetId].(status := ApprovedSheet, approvedBy := Some(approver))]),
        [TimesheetApproved(sheetId)] + EventsFor(db.logs, tenantId, sheetId, ApprovedEvent()))
  }

  function RejectSheetNow(db: Db, tenantId: string, sheetId: nat, approver: string, reason: string): Outcome {
    if !HasSheet(db, tenantId, sheetId) then Refused(NotFound)
    else if db.sheets[sheetId].status != Submitted then Refused(InvalidTransition)
    else if !AllLinked(db, tenantId, sheetId, CanReject()) then Refused(RuleViolation)
    else
      Committed(
        Db(CascadedRows(db.logs, tenantId, sheetId, Rejected),
           db.sheets[sheetId := db.sheets[sheetId].(status := RejectedSheet, approvedBy := Some(approver), rejectionReason := reason)]),
        [TimesheetRejected(sheetId)] + EventsFor(db.logs, tenantId, sheetId, RejectedEvent()))
  }

  function Pausing(now: int): Log -> Option<Log> { (l: Log) => TimerPausedAt(l, now) }
  function Resuming(now: int): Log -> Option<Log> { (l: Log) => TimerResumedAt(l, now) }
  function Stopping(now: int): Log -> Option<Log> { (l: Log) => TimerStoppedAt(l, now) }
  function Editing(e: Edit): Log -> Option<Log> { (l: Log) => Edited(l, e) }
  function Approving(): Log -> Option<Log> { (l: Log) => LogApproved(l) }
  function Rejecting(): Log -> Option<Log> { (l: Log) => LogRejected(l) }

  function PausedEvents(): Log -> seq<Event> { (l: Log) => [TimerPaused(l.id, l.accumulatedSeconds)] }
  function ResumedEvents(): Log -> seq<Event> { (l: Log) => [TimerResumed(l.id)] }
  function ApprovedEvents(): Log -> seq<Event> { (l: Log) => [Announcement(l)] }
  function RejectedEvents(): Log -> seq<Event> { (l: Log) => [TimeLogRejected(l.id)] }
  function NoEvents(): Log -> seq<Event> { (l: Log) => [] }

  function Execute(db: Db, op: Op, now: int): Outcome {
    match op
    case CreateLog(r, hours) => Create(db, r, hours)
    case StartTimer(r) => Start(db, r, now)
    case PauseTimer(t, i) => OnLog(db, t, i, Pausing(now), PausedEvents())
    case ResumeTimer(t, i) => OnLog(db, t, i, Resuming(now), ResumedEvents())
    case StopTimer(t, i) => OnLog(db, t, i, Stopping(now), NoEvents())
    case UpdateLog(t, i, e) => OnLog(db, t, i, Editing(e), NoEvents())
    case ApproveLog(t, i) => OnLog(db, t, i, Approving(), ApprovedEvents())
    case RejectLog(t, i) => OnLog(db, t, i, Rejecting(), RejectedEvents())
    case SubmitSheet(_, _, _, _, _) => Submit(db, op)
    case ApproveSheet(t, s, a) => ApproveSheetNow(db, t, s, a)
    case RejectSheet(t, s, a, reason) => RejectSheetNow(db, t, s, a, reason)
  }

  // ------------------------------------------------------------------ runs

  /** The database, the clock, and every event whose publication was attempted. */
  datatype World = World(db: Db, clock: int, attempts: seq<Event>)

  /** One request, `wait` microseconds after the previous one: the clock never goes back. */
  datatype Request = Request(wait: nat, op: Op)

  function Next(w: World, r: Request): World {
    var now := w.clock + r.wait;
    match Execute(w.db, r.op, now)
    case Committed(db, events) => World(db, now, w.attempts + events)
    case Refused(_) => w.(clock := now)
  }

  /** The page a submission works on is one the query may return. */
  predicate Possible(w: World, r: Request) {
    r.op.SubmitSheet? ==> IsPage(w.db.logs, r.op.tenantId, r.op.userId, r.op.weekStart, r.op.weekEnd, r.op.picked)
  }

  const START := World(Db([], []), 0, [])

  function After(run: seq<Request>): World {
    if run == [] then START else Next(After(run[..|run| - 1]), run[|run| - 1])
  }

  ghost predicate IsRun(run: seq<Request>) {
    run != [] ==>
      var init := run[..|run| - 1];
      IsRun(init) && Possible(After(init), run[|run| - 1])
  }
}
