/** The entities as objects whose methods change them in place. */
module Entities {
  import opened Wrappers
  import opened Workflow

  class TimeLog {
    const id: nat
    const tenantId: string
    const userId: string
    const projectId: string
    const taskId: Option<string>
    const logDate: int
    var hours: real
    var description: string
    var billable: bool
    var hourlyRate: Option<real>
    var timerStartedAt: Option<int>
    var timerStoppedAt: Option<int>
    var timerStatus: TimerStatus
    var accumulatedSeconds: int
    var approvalStatus: ApprovalStatus
    var timesheetId: Option<nat>
    var aiCategory: Option<string>
    var aiQualityScore: Option<int>
    var aiSuggestion: Option<string>

    function Value(): Log
      reads this
    {
      Log(id, tenantId, userId, projectId, taskId, hours, logDate, description, billable, hourlyRate, timerStartedAt,
          timerStoppedAt, timerStatus, accumulatedSeconds, approvalStatus, timesheetId, aiCategory, aiQualityScore, aiSuggestion)
    }

    /** Validation comes before construction: see `Readable`. */
    constructor (l: Log)
      requires Readable(l)
      ensures Value() == l
    {
      id, tenantId, userId, projectId, taskId, logDate := l.id, l.tenantId, l.userId, l.projectId, l.taskId, l.logDate;
      hours, description, billable, hourlyRate := l.hours, l.description, l.billable, l.hourlyRate;
      timerStartedAt, timerStoppedAt, timerStatus := l.timerStartedAt, l.timerStoppedAt, l.timerStatus;
      accumulatedSeconds, approvalStatus, timesheetId := l.accumulatedSeconds, l.approvalStatus, l.timesheetId;
      aiCategory, aiQualityScore, aiSuggestion := l.aiCategory, l.aiQualityScore, l.aiSuggestion;
    }

    /** False stands for the raised business-rule error; the object is then unchanged. */
    method UpdateHours(h: real) returns (ok: bool)
      modifies this`hours
      ensures ok <==> 0.0 < h <= MAX_DAILY_HOURS
      ensures hours == if ok then h else old(hours)
    {
      ok := 0.0 < h <= MAX_DAILY_HOURS;
      if ok {
        hours := h;
      }
    }

    method PauseTimer(now: int) returns (ok: bool)
      modifies this
      ensures ok <==> TimerPausedAt(old(Value()), now).Some?
      ensures Value() == TimerPausedAt(old(Value()), now).GetOr(old(Value()))
    {
      hide HoursOf, WholeSeconds;
      if timerStatus != Running || timerStartedAt.None? {
        return false;
      }
      var elapsed := WholeSeconds(now - timerStartedAt.value);
      accumulatedSeconds := accumulatedSeconds + elapsed;
      timerStartedAt := None;
      timerStatus := Paused;
      hours := HoursOf(accumulatedSeconds);
      return true;
    }

    method ResumeTimer(now: int) returns (ok: bool)
      modifies this
      ensures ok <==> TimerResumedAt(old(Value()), now).Some?
      ensures Value() == TimerResumedAt(old(Value()), now).GetOr(old(Value()))
    {
      if timerStatus != Paused {
        return false;
      }
      timerStartedAt := Some(now);
      timerStatus := Running;
      return true;
    }

    method StopTimer(now: int) returns (ok: bool)
      modifies this
      ensures ok <==> TimerStoppedAt(old(Value()), now).Some?
      ensures Value() == TimerStoppedAt(old(Value()), now).GetOr(old(Value()))
    {
      hide HoursOf, WholeSeconds;
      if timerStatus == Completed || timerStatus == Idle {
        return false;
      }
      if timerStatus == Running && timerStartedAt.Some? {
        var elapsed := WholeSeconds(now - timerStartedAt.value);
        accumulatedSeconds := accumulatedSeconds + elapsed;
      }
      timerStoppedAt := Some(now);
      timerStatus := Completed;
      hours := HoursOf(accumulatedSeconds);
      approvalStatus := PendingManager;
      return true;
    }

    method Approve() returns (ok: bool)
      modifies this`approvalStatus
      ensures ok <==> Approvable(old(Value()))
      ensures Value() == LogApproved(old(Value())).GetOr(old(Value()))
    {
      ok := approvalStatus == PendingManager || approvalStatus == Rejected;
      if ok {
        approvalStatus := Approved;
      }
    }

    method Reject() returns (ok: bool)
      modifies this`approvalStatus
      ensures ok <==> Rejectable(old(Value()))
      ensures Value() == LogRejected(old(Value())).GetOr(old(Value()))
    {
      ok := approvalStatus == PendingManager;
      if ok {
        approvalStatus := Rejected;
      }
    }

    method Apply(e: Edit) returns (ok: bool)
      modifies this
      ensures ok <==> Edited(old(Value()), e).Some?
      ensures Value() == Edited(old(Value()), e).GetOr(old(Value()))
    {
      if e.hours.Some? {
        ok := UpdateHours(e.hours.value);
        if !ok {
          return;
        }
      }
      if e.description.Some? { description := e.description.value; }
      if e.billable.Some? { billable := e.billable.value; }
      if e.hourlyRate.Some? { hourlyRate := e.hourlyRate; }
      return true;
    }
  }

  /** The transition table. */
  predicate Allowed(current: SheetStatus, next: SheetStatus) {
    match current
    case DraftSheet => next == Submitted
    case Submitted => next == ApprovedSheet || next == RejectedSheet
    case ApprovedSheet => false
    case RejectedSheet => next == DraftSheet
  }

  class Timesheet {
    const id: nat
    const tenantId: string
    const userId: string
    const weekStart: int
    const weekEnd: int
    var totalHours: real
    var status: SheetStatus
    var approvedBy: Option<string>
    var rejectionReason: string

    function Value(): Sheet
      reads this
    {
      Sheet(id, tenantId, userId, weekStart, weekEnd, totalHours, status, approvedBy, rejectionReason)
    }

    constructor (s: Sheet)
      ensures Value() == s
    {
      id, tenantId, userId, weekStart, weekEnd := s.id, s.tenantId, s.userId, s.weekStart, s.weekEnd;
      totalHours, status, approvedBy, rejectionReason := s.totalHours, s.status, s.approvedBy, s.rejectionReason;
    }

    method TransitionTo(next: SheetStatus) returns (ok: bool)
      modifies this`status
      ensures ok <==> Allowed(old(status), next)
      ensures status == if ok then next else old(status)
    {
      ok := Allowed(status, next);
      if ok {
        status := next;
      }
    }

    method Submit() returns (ok: bool)
      modifies this`status
      ensures ok <==> old(status) == DraftSheet
      ensures status == if ok then Submitted else old(status)
    {
      ok := TransitionTo(Submitted);
    }

    method Approve(approver: string) returns (ok: bool)
      modifies this`status, this`approvedBy
      ensures ok <==> old(status) == Submitted
      ensures Value() == if ok then old(Value()).(status := ApprovedSheet, approvedBy := Some(approver)) else old(Value())
    {
      ok := TransitionTo(ApprovedSheet);
      if ok {
        approvedBy := Some(approver);
      }
    }

    method Reject(approver: string, reason: string) returns (ok: bool)
      modifies this`status, this`approvedBy, this`rejectionReason
      ensures ok <==> old(status) == Submitted
      ensures Value() == if ok
                         then old(Value()).(status := RejectedSheet, approvedBy := Some(approver), rejectionReason := reason)
                         else old(Value())
    {
      ok := TransitionTo(RejectedSheet);
      if ok {
        approvedBy := Some(approver);
        rejectionReason := reason;
      }
    }

    method Reopen() returns (ok: bool)
      modifies this`status, this`approvedBy, this`rejectionReason
      ensures ok <==> old(status) == RejectedSheet
      ensures Value() == if ok then old(Value()).(status := DraftSheet, approvedBy := None, rejectionReason := "")
                         else old(Value())
    {
      ok := TransitionTo(DraftSheet);
      if ok {
        approvedBy := None;
        rejectionReason := "";
      }
    }
  }
}
