/** Database rows of time logs and timesheets, and their mapping to entities. */
module Rows {
  import opened Wrappers
  import opened Workflow
  import opened WorkflowInvariants

  /** Statuses are stored by name. */
  datatype LogRow = LogRow(
    id: nat, tenantId: string, userId: string, projectId: string, taskId: Option<string>,
    hours: real, logDate: int, description: string, billable: bool, hourlyRate: Option<real>,
    timerStartedAt: Option<int>, timerStoppedAt: Option<int>, timerStatus: string, accumulatedSeconds: int,
    approvalStatus: string, timesheetId: Option<nat>,
    aiCategory: Option<string>, aiQualityScore: Option<int>, aiSuggestion: Option<string>)

  datatype SheetRow = SheetRow(
    id: nat, tenantId: string, userId: string, weekStart: int, weekEnd: int, totalHours: real,
    status: string, approvedBy: Option<string>, rejectionReason: string)

  function TimerName(s: TimerStatus): string {
    match s
    case Idle => "idle"
    case Running => "running"
    case Paused => "paused"
    case Completed => "completed"
  }

  function ParseTimer(name: string): Option<TimerStatus> {
    if name == "idle" then Some(Idle)
    else if name == "running" then Some(Running)
    else if name == "paused" then Some(Paused)
    else if name == "completed" then Some(Completed)
    else None
  }

  function ApprovalName(s: ApprovalStatus): string {
    match s
    case Draft => "draft"
    case PendingManager => "pending_manager"
    case Approved => "approved"
    case Rejected => "rejected"
  }

  function ParseApproval(name: string): Option<ApprovalStatus> {
    if name == "draft" then Some(Draft)
    else if name == "pending_manager" then Some(PendingManager)
    else if name == "approved" then Some(Approved)
    else if name == "rejected" then Some(Rejected)
    else None
  }

  function SheetName(s: SheetStatus): string {
    match s
    case DraftSheet => "draft"
    case Submitted => "submitted"
    case ApprovedSheet => "approved"
    case RejectedSheet => "rejected"
  }

  function ParseSheet(name: string): Option<SheetStatus> {
    if name == "draft" then Some(DraftSheet)
    else if name == "submitted" then Some(Submitted)
    else if name == "approved" then Some(ApprovedSheet)
    else if name == "rejected" then Some(RejectedSheet)
    else None
  }

  function ToLogRow(l: Log): LogRow {
    LogRow(l.id, l.tenantId, l.userId, l.projectId, l.taskId, l.hours, l.logDate, l.description, l.billable, l.hourlyRate,
           l.timerStartedAt, l.timerStoppedAt, TimerName(l.timerStatus), l.accumulatedSeconds,
           ApprovalName(l.approvalStatus), l.timesheetId, l.aiCategory, l.aiQualityScore, l.aiSuggestion)
  }

  datatype RowError = UnknownStatus | ConstructorRejects

  /** Reading a row: the status names must be known, and the constructor validates again. */
  function FromLogRow(r: LogRow): Result<Log, RowError> {
    var timer, approval := ParseTimer(r.timerStatus), ParseApproval(r.approvalStatus);
    if timer.None? || approval.None? then Failure(UnknownStatus)
    else
      var l := Log(r.id, r.tenantId, r.userId, r.projectId, r.taskId, r.hours, r.logDate, r.description, r.billable,
                   r.hourlyRate, r.timerStartedAt, r.timerStoppedAt, timer.value, r.accumulatedSeconds, approval.value,
                   r.timesheetId, r.aiCategory, r.aiQualityScore, r.aiSuggestion);
      if Readable(l) then Success(l) else Failure(ConstructorRejects)
  }

  function ToSheetRow(s: Sheet): SheetRow {
    SheetRow(s.id, s.tenantId, s.userId, s.weekStart, s.weekEnd, s.totalHours, SheetName(s.status), s.approvedBy, s.rejectionReason)
  }

  function FromSheetRow(r: SheetRow): Result<Sheet, RowError> {
    var status := ParseSheet(r.status);
    if status.None? then Failure(UnknownStatus)
    else Success(Sheet(r.id, r.tenantId, r.userId, r.weekStart, r.weekEnd, r.totalHours, status.value, r.approvedBy, r.rejectionReason))
  }

  /** Writing then reading restores every field exactly when the constructor accepts the log. */
  lemma LogRoundTripIff(l: Log)
    ensures FromLogRow(ToLogRow(l)) == (if Readable(l) then Success(l) else Failure(ConstructorRejects))
  {
    assert ParseTimer(TimerName(l.timerStatus)) == Some(l.timerStatus);
    assert ParseApproval(ApprovalName(l.approvalStatus)) == Some(l.approvalStatus);
  }

  /** Reading then writing restores the row, so no two rows read as the same log. */
  lemma RowRoundTrip(r: LogRow)
    requires FromLogRow(r).Success?
    ensures ToLogRow(FromLogRow(r).value) == r
  {
    assert TimerName(ParseTimer(r.timerStatus).value) == r.timerStatus;
    assert ApprovalName(ParseApproval(r.approvalStatus).value) == r.approvalStatus;
  }

  lemma SheetRoundTrip(s: Sheet)
    ensures FromSheetRow(ToSheetRow(s)) == Success(s)
  {
    assert ParseSheet(SheetName(s.status)) == Some(s.status);
  }

  /** Each column holds the field it is named after, and statuses are stored by their names. */
  lemma ColumnsHoldFields(l: Log, s: Sheet)
    ensures
      var r := ToLogRow(l);
      && r.id == l.id && r.tenantId == l.tenantId && r.userId == l.userId && r.projectId == l.projectId && r.taskId == l.taskId
      && r.hours == l.hours && r.logDate == l.logDate && r.description == l.description && r.billable == l.billable
      && r.hourlyRate == l.hourlyRate && r.timerStartedAt == l.timerStartedAt && r.timerStoppedAt == l.timerStoppedAt
      && r.accumulatedSeconds == l.accumulatedSeconds && r.timesheetId == l.timesheetId
      && r.aiCategory == l.aiCategory && r.aiQualityScore == l.aiQualityScore && r.aiSuggestion == l.aiSuggestion
      && (r.timerStatus, l.timerStatus) in {("idle", Idle), ("running", Running), ("paused", Paused), ("completed", Completed)}
      && (r.approvalStatus, l.approvalStatus) in
           {("draft", Draft), ("pending_manager", PendingManager), ("approved", Approved), ("rejected", Rejected)}
    ensures
      var r := ToSheetRow(s);
      && r.id == s.id && r.tenantId == s.tenantId && r.userId == s.userId && r.weekStart == s.weekStart && r.weekEnd == s.weekEnd
      && r.totalHours == s.totalHours && r.approvedBy == s.approvedBy && r.rejectionReason == s.rejectionReason
      && (r.status, s.status) in
           {("draft", DraftSheet), ("submitted", Submitted), ("approved", ApprovedSheet), ("rejected", RejectedSheet)}
  {
  }

  /** Every log any run can store reads back as it was written: validation never raises on a stored row. */
  lemma EveryStoredLogReadsBack(run: seq<Request>, i: nat)
    requires IsRun(run) && i < |After(run).db.logs|
    ensures FromLogRow(ToLogRow(After(run).db.logs[i])) == Success(After(run).db.logs[i])
  {
    EveryRunIsSound(run);
    assert LogSound(After(run), i);
    LogRoundTripIff(After(run).db.logs[i]);
  }

  // ---------------------------------------------------------------- tables

  datatype Stored = Stored(logs: seq<LogRow>, sheets: seq<SheetRow>)

  function LogRows(logs: seq<Log>): seq<LogRow> {
    seq(|logs|, i requires 0 <= i < |logs| => ToLogRow(logs[i]))
  }

  function SheetRows(sheets: seq<Sheet>): seq<SheetRow> {
    seq(|sheets|, i requires 0 <= i < |sheets| => ToSheetRow(sheets[i]))
  }

  function Store(db: Db): Stored {
    Stored(LogRows(db.logs), SheetRows(db.sheets))
  }
}
