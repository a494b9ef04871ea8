/**
 The use cases as transactions over objects: load, change in place, write
 back, commit, then publish.  Each is proved to do exactly what the matching
 branch of `Workflow.Execute` says.
 */
module UseCases {
  import opened Wrappers
  import opened Tables
  import opened Workflow
  import opened Entities
  import opened UnitOfWork

  /** A committed outcome changes the database and attempts its events; a refused one changes nothing. */
  ghost predicate Did(out: Outcome, error: Option<Error>, db: Db, db': Db, published: seq<Event>, published': seq<Event>) {
    match out
    case Committed(after, events) => error == None && db' == after && published' == published + events
    case Refused(e) => error == Some(e) && db' == db && published' == published
  }

  /** What a sheet's decision does to each of its logs. */
  datatype Verdict = Approval | Rejection {
    function Status(): ApprovalStatus {
      if Approval? then Approved else Rejected
    }

    predicate Permits(l: Log) {
      if Approval? then Approvable(l) else Rejectable(l)
    }

    function Guard(): Log -> bool {
      if Approval? then CanApprove() else CanReject()
    }

    function Event(): Log -> Event {
      if Approval? then ApprovedEvent() else RejectedEvent()
    }
  }

  function Ids(page: seq<nat>): set<nat> {
    set i | i in page
  }

  /** Rows whose id is listed have been decided, the others not yet. */
  ghost predicate DecidedUpTo(now: seq<Log>, before: seq<Log>, ids: seq<nat>, status: ApprovalStatus) {
    && |now| == |before|
    && forall i :: 0 <= i < |now| ==> now[i] == if i in ids then before[i].(approvalStatus := status) else before[i]
  }

  lemma AllDecided(now: seq<Log>, before: seq<Log>, found: seq<Log>, tenantId: string, sheetId: nat, status: ApprovalStatus)
    requires IsListing(found, before, tenantId, sheetId) && DecidedUpTo(now, before, IdsOf(found), status)
    requires forall i :: 0 <= i < |before| ==> before[i].id == i
    ensures now == CascadedRows(before, tenantId, sheetId, status)
  {
    forall i | 0 <= i < |before| ensures i in IdsOf(found) <==> LinkedTo(before[i], tenantId, sheetId) {
      if i in IdsOf(found) {
        var k :| 0 <= k < |found| && IdsOf(found)[k] == i;
        assert IsLinkedRow(found[k], before, tenantId, sheetId);
      }
      if LinkedTo(before[i], tenantId, sheetId) {
        var k :| 0 <= k < |found| && found[k] == before[i];
        assert IdsOf(found)[k] == i;
      }
    }
  }

  /** The next listed row is still as it was; deciding it extends the decided part. */
  lemma DecideOneMore(now: seq<Log>, before: seq<Log>, found: seq<Log>, j: nat, tenantId: string, sheetId: nat, status: ApprovalStatus)
    requires IsListing(found, before, tenantId, sheetId) && j < |found|
    requires DecidedUpTo(now, before, IdsOf(found)[..j], status)
    ensures IdsOf(found)[j] == found[j].id < |now| && now[found[j].id] == found[j]
    ensures DecidedUpTo(now[found[j].id := found[j].(approvalStatus := status)], before, IdsOf(found)[..j + 1], status)
  {
    assert IsLinkedRow(found[j], before, tenantId, sheetId);
    assert IdsOf(found)[..j + 1] == IdsOf(found)[..j] + [found[j].id];
  }

  lemma AllowedIffFoundAllowed(db: Db, found: seq<Log>, tenantId: string, sheetId: nat, allowed: Log -> bool)
    requires IsListing(found, db.logs, tenantId, sheetId)
    ensures AllLinked(db, tenantId, sheetId, allowed) <==> forall k :: 0 <= k < |found| ==> allowed(found[k])
  {
    if AllLinked(db, tenantId, sheetId, allowed) {
      forall k | 0 <= k < |found| ensures allowed(found[k]) {
        assert IsLinkedRow(found[k], db.logs, tenantId, sheetId);
      }
    }
  }

  /** The first `j` logs of the page are linked, the other rows are as before. */
  ghost predicate LinkedUpTo(now: seq<Log>, before: seq<Log>, page: seq<nat>, j: nat, sheetId: nat)
    requires j <= |page|
  {
    now == LinkedRows(before, Ids(page[..j]), sheetId)
  }

  lemma LinkOneMore(now: seq<Log>, before: seq<Log>, page: seq<nat>, j: nat, sheetId: nat)
    requires j < |page| && LinkedUpTo(now, before, page, j, sheetId)
    requires forall i :: 0 <= i < |before| ==> before[i].id == i
    requires page[j] < |before| && page[j] !in page[..j]
    ensures |now| == |before| && now[page[j]] == before[page[j]]
    ensures LinkedUpTo(now[page[j] := before[page[j]].(timesheetId := Some(sheetId), approvalStatus := PendingManager)],
                       before, page, j + 1, sheetId)
  {
    assert page[..j + 1] == page[..j] + [page[j]];
    assert Ids(page[..j + 1]) == Ids(page[..j]) + {page[j]};
  }

  class Api {
    const uow: Transaction
    var published: seq<Event>

    constructor ()
      ensures fresh(uow) && uow.Valid() && uow.db == Db([], []) && published == []
    {
      uow := new Transaction();
      published := [];
    }

    method Create(r: NewLog, hours: real) returns (error: Option<Error>)
      requires uow.Valid()
      modifies uow
      ensures uow.Valid()
      ensures Did(Workflow.Create(old(uow.db), r, hours), error, old(uow.db), uow.db, old(published), published)
      ensures error.None? ==> Sum(old(uow.db).logs, DayHours(r.tenantId, r.userId, r.logDate)) + hours <= MAX_DAILY_HOURS
    {
      uow.Enter();
      if r.project.None? {
        return Some(NotFound);
      }
      var existing := uow.SumHours(r.tenantId, r.userId, r.logDate);
      if existing + hours > MAX_DAILY_HOURS {
        uow.Rollback();
        return Some(RuleViolation);
      }
      var l := Log(|uow.session.logs|, r.tenantId, r.userId, r.projectId, r.taskId, hours, r.logDate, r.description,
                   r.billable, Rate(r), None, None, Idle, 0, PendingManager, None, None, None, None);
      var ok := uow.AddLog(l);
      if !ok {
        uow.Rollback();
        return Some(RuleViolation);
      }
      uow.Commit();
      return None;
    }

    method StartTimer(r: NewLog, now: int) returns (error: Option<Error>)
      requires uow.Valid()
      modifies uow, this`published
      ensures uow.Valid()
      ensures Did(Start(old(uow.db), r, now), error, old(uow.db), uow.db, old(published), published)
    {
      uow.Enter();
      if r.project.None? {
        return Some(NotFound);
      }
      var id := |uow.session.logs|;
      var _ := uow.AddLog(Log(id, r.tenantId, r.userId, r.projectId, r.taskId, 0.0, r.logDate, r.description, r.billable,
                              Rate(r), Some(now), None, Running, 0, Draft, None, None, None, None));
      uow.Commit();
      published := published + [TimerStarted(id)];
      return None;
    }

    /** Write the changed object back and commit, or roll everything back. */
    method Finish(l: TimeLog, ok: bool) returns (saved: bool)
      requires uow.Valid() && uow.view == uow.db && l.id < |uow.view.logs|
      modifies uow
      ensures uow.Valid() && uow.view == uow.db
      ensures saved == (ok && Readable(l.Value()))
      ensures uow.db == if saved then old(uow.db).(logs := old(uow.db).logs[l.id := l.Value()]) else old(uow.db)
    {
      if !ok {
        uow.Rollback();
        return false;
      }
      saved := uow.UpdateLog(l);
      if !saved {
        uow.Rollback();
        return;
      }
      uow.Commit();
    }

    method PauseTimer(tenantId: string, logId: nat, now: int) returns (error: Option<Error>)
      requires uow.Valid()
      modifies uow, this`published
      ensures uow.Valid()
      ensures Did(OnLog(old(uow.db), tenantId, logId, Pausing(now), PausedEvents()), error,
                  old(uow.db), uow.db, old(published), published)
    {
      uow.Enter();
      var l, missing := uow.GetLog(tenantId, logId);
      if l == null {
        return Some(missing);
      }
      var ok := l.PauseTimer(now);
      var saved := Finish(l, ok);
      if !saved {
        return Some(RuleViolation);
      }
      published := published + [TimerPaused(l.id, l.accumulatedSeconds)];
      return None;
    }

    method ResumeTimer(tenantId: string, logId: nat, now: int) returns (error: Option<Error>)
      requires uow.Valid()
      modifies uow, this`published
      ensures uow.Valid()
      ensures Did(OnLog(old(uow.db), tenantId, logId, Resuming(now), ResumedEvents()), error,
                  old(uow.db), uow.db, old(published), published)
    {
      uow.Enter();
      var l, missing := uow.GetLog(tenantId, logId);
      if l == null {
        return Some(missing);
      }
      var ok := l.ResumeTimer(now);
      var saved := Finish(l, ok);
      if !saved {
        return Some(RuleViolation);
      }
      published := published + [TimerResumed(l.id)];
      return None;
    }

    method StopTimer(tenantId: string, logId: nat, now: int) returns (error: Option<Error>)
      requires uow.Valid()
      modifies uow
      ensures uow.Valid()
      ensures Did(OnLog(old(uow.db), tenantId, logId, Stopping(now), NoEvents()), error,
                  old(uow.db), uow.db, old(published), published)
    {
      uow.Enter();
      var l, missing := uow.GetLog(tenantId, logId);
      if l == null {
        return Some(missing);
      }
      var ok := l.StopTimer(now);
      var saved := Finish(l, ok);
      return if saved then None else Some(RuleViolation);
    }

    method UpdateLog(tenantId: string, logId: nat, edit: Edit) returns (error: Option<Error>)
      requires uow.Valid()
      modifies uow
      ensures uow.Valid()
      ensures Did(OnLog(old(uow.db), tenantId, logId, Editing(edit), NoEvents()), error,
                  old(uow.db), uow.db, old(published), published)
    {
      uow.Enter();
      var l, missing := uow.GetLog(tenantId, logId);
      if l == null {
        return Some(missing);
      }
      var ok := l.Apply(edit);
      var saved := Finish(l, ok);
      return if saved then None else Some(RuleViolation);
    }

    method ApproveLog(tenantId: string, logId: nat) returns (error: Option<Error>)
      requires uow.Valid()
      modifies uow, this`published
      ensures uow.Valid()
      ensures Did(OnLog(old(uow.db), tenantId, logId, Approving(), ApprovedEvents()), error,
                  old(uow.db), uow.db, old(published), published)
    {
      uow.Enter();
      var l, missing := uow.GetLog(tenantId, logId);
      if l == null {
        return Some(missing);
      }
      var ok := l.Approve();
      var saved := Finish(l, ok);
      if !saved {
        return Some(RuleViolation);
      }
      published := published + [TimeLogApproved(
        l.id, l.tenantId, l.userId, l.projectId, l.hours, l.logDate, l.description, l.billable, l.hourlyRate)];
      return None;
    }

    method RejectLog(tenantId: string, logId: nat) returns (error: Option<Error>)
      requires uow.Valid()
      modifies uow, this`published
      ensures uow.Valid()
      ensures Did(OnLog(old(uow.db), tenantId, logId, Rejecting(), RejectedEvents()), error,
                  old(uow.db), uow.db, old(published), published)
    {
      uow.Enter();
      var l, missing := uow.GetLog(tenantId, logId);
      if l == null {
        return Some(missing);
      }
      var ok := l.Reject();
      var saved := Finish(l, ok);
      if !saved {
        return Some(RuleViolation);
      }
      published := published + [TimeLogRejected(l.id)];
      return None;
    }

    // ----------------------------------------------------------- cascades

    /** Decide the listed logs one by one; the first refusal stops the loop. */
    method DecideAll(verdict: Verdict, ids: seq<nat>, ghost found: seq<Log>, ghost tenantId: string, ghost sheetId: nat)
      returns (decided: seq<Log>, ok: bool)
      requires uow.Valid() && ids == IdsOf(found) && AllReadable(found)
      requires IsListing(found, uow.view.logs, tenantId, sheetId)
      modifies uow
      ensures uow.Valid() && uow.db == old(uow.db) && uow.view.sheets == old(uow.view.sheets)
      ensures ok <==> forall k :: 0 <= k < |found| ==> verdict.Permits(found[k])
      ensures ok ==> DecidedUpTo(uow.view.logs, old(uow.view.logs), ids, verdict.Status())
      ensures ok ==> EventsOf(decided, verdict.Event()) == EventsOf(found, verdict.Event())
    {
      hide Transaction.Valid, IsListing, Readable;
      decided := [];
      for j := 0 to |ids|
        invariant uow.Valid() && uow.db == old(uow.db) && uow.view.sheets == old(uow.view.sheets)
        invariant DecidedUpTo(uow.view.logs, old(uow.view.logs), ids[..j], verdict.Status())
        invariant forall k :: 0 <= k < j ==> verdict.Permits(found[k])
        invariant |decided| == j && forall k :: 0 <= k < j ==> decided[k] == found[k].(approvalStatus := verdict.Status())
      {
        DecideOneMore(uow.view.logs, old(uow.view.logs), found, j, tenantId, sheetId, verdict.Status());
        hide DecidedUpTo;
        var tl := uow.ReadLog(ids[j]);
        var one := Decide(tl, verdict);
        if !one {
          return decided, false;
        }
        var _ := uow.UpdateLog(tl);
        decided := decided + [tl.Value()];
      }
      assert ids[..|ids|] == ids;
      ok := true;
    }

    method Decide(tl: TimeLog, verdict: Verdict) returns (ok: bool)
      modifies tl`approvalStatus
      ensures ok <==> verdict.Permits(old(tl.Value()))
      ensures tl.Value() == if ok then old(tl.Value()).(approvalStatus := verdict.Status()) else old(tl.Value())
    {
      match verdict
      case Approval => ok := tl.Approve();
      case Rejection => ok := tl.Reject();
    }

    /** The cascade over the sheet's logs inside the open transaction. */
    method DecideLinked(verdict: Verdict, tenantId: string, sheetId: nat) returns (decided: seq<Log>, ok: bool)
      requires uow.Valid()
      modifies uow
      ensures uow.Valid() && uow.db == old(uow.db) && uow.view.sheets == old(uow.view.sheets)
      ensures ok <==> AllLinked(old(uow.view), tenantId, sheetId, verdict.Guard())
      ensures ok ==> uow.view.logs == CascadedRows(old(uow.view.logs), tenantId, sheetId, verdict.Status())
      ensures ok ==> EventsOf(decided, verdict.Event()) == EventsFor(old(uow.view.logs), tenantId, sheetId, verdict.Event())
    {
      ghost var before := uow.view;
      assert IdsMatch(before);
      hide Transaction.Valid;
      ghost var found := LinkedLogs(before.logs, tenantId, sheetId);
      LinkedLogsAreListed(before.logs, tenantId, sheetId);
      AllowedIffFoundAllowed(before, found, tenantId, sheetId, verdict.Guard());
      EventsForLinked(before.logs, tenantId, sheetId, verdict.Event());
      hide IsListing;
      var ids, readable := uow.ListByTimesheet(tenantId, sheetId);
      if !readable {
        return [], false;
      }
      decided, ok := DecideAll(verdict, ids, found, tenantId, sheetId);
      if ok {
        AllDecided(uow.view.logs, before.logs, found, tenantId, sheetId, verdict.Status());
      }
    }

    method Announce(decided: seq<Log>, event: Log -> Event)
      modifies this`published
      ensures published == old(published) + EventsOf(decided, event)
    {
      for k := 0 to |decided|
        invariant published == old(published) + EventsOf(decided, event)[..k]
      {
        assert EventsOf(decided, event)[..k + 1] == EventsOf(decided, event)[..k] + [event(decided[k])];
        published := published + [event(decided[k])];
      }
      assert EventsOf(decided, event)[..|decided|] == EventsOf(decided, event);
    }

    method ApproveTimesheet(tenantId: string, sheetId: nat, approver: string) returns (error: Option<Error>)
      requires uow.Valid()
      modifies uow, this`published
      ensures uow.Valid()
      ensures Did(ApproveSheetNow(old(uow.db), tenantId, sheetId, approver), error, old(uow.db), uow.db, old(published), published)
    {
      uow.Enter();
      ghost var db := uow.db;
      assert sheetId < |db.sheets| ==> db.sheets[sheetId].id == sheetId;
      hide Transaction.Valid;
      var sheet := uow.GetSheet(tenantId, sheetId);
      if sheet == null {
        return Some(NotFound);
      }
      var ok := sheet.Approve(approver);
      if !ok {
        uow.Rollback();
        return Some(InvalidTransition);
      }
      uow.UpdateSheet(sheet);
      var decided, all := DecideLinked(Approval, tenantId, sheetId);
      if !all {
        uow.Rollback();
        return Some(RuleViolation);
      }
      uow.Commit();
      published := published + [TimesheetApproved(sheetId)];
      Announce(decided, ApprovedEvent());
      return None;
    }

    method RejectTimesheet(tenantId: string, sheetId: nat, approver: string, reason: string) returns (error: Option<Error>)
      requires uow.Valid()
      modifies uow, this`published
      ensures uow.Valid()
      ensures Did(RejectSheetNow(old(uow.db), tenantId, sheetId, approver, reason), error, old(uow.db), uow.db, old(published), published)
    {
      uow.Enter();
      ghost var db := uow.db;
      assert sheetId < |db.sheets| ==> db.sheets[sheetId].id == sheetId;
      hide Transaction.Valid;
      var sheet := uow.GetSheet(tenantId, sheetId);
      if sheet == null {
        return Some(NotFound);
      }
      var ok := sheet.Reject(approver, reason);
      if !ok {
        uow.Rollback();
        return Some(InvalidTransition);
      }
      uow.UpdateSheet(sheet);
      var decided, all := DecideLinked(Rejection, tenantId, sheetId);
      if !all {
        uow.Rollback();
        return Some(RuleViolation);
      }
      uow.Commit();
      published := published + [TimesheetRejected(sheetId)];
      Announce(decided, RejectedEvent());
      return None;
    }

    // --------------------------------------------------------- submission

    /** Total the hours of the page's rows; `ok == false` when one cannot be read. */
    method TotalPage(page: seq<nat>) returns (total: real, ok: bool)
      requires uow.Valid()
      requires forall k :: 0 <= k < |page| ==> page[k] < |uow.view.logs|
      requires forall j, k :: 0 <= j < k < |page| ==> page[j] != page[k]
      ensures ok <==> forall k :: 0 <= k < |page| ==> Readable(uow.view.logs[page[k]])
      ensures ok ==> total == Sum(uow.view.logs, PickedHours(Ids(page)))
    {
      assert IdsMatch(uow.view);
      hide Transaction.Valid, Readable;
      total := 0.0;
      assert Ids(page[..0]) == {};
      SumZero(uow.view.logs, PickedHours({}));
      for j := 0 to |page|
        invariant total == Sum(uow.view.logs, PickedHours(Ids(page[..j])))
        invariant forall k :: 0 <= k < j ==> Readable(uow.view.logs[page[k]])
      {
        var l := uow.ReadLog(page[j]);
        if l == null {
          return total, false;
        }
        total := total + l.hours;
        assert page[..j + 1] == page[..j] + [page[j]];
        PickOneMore(uow.view.logs, Ids(page[..j]), page[j]);
        assert Ids(page[..j + 1]) == Ids(page[..j]) + {page[j]};
      }
      assert page[..|page|] == page;
      ok := true;
    }

    /** Link each log of the page and put it up for approval. */
    method LinkAll(page: seq<nat>, sheetId: nat)
      requires uow.Valid()
      requires forall k :: 0 <= k < |page| ==> page[k] < |uow.view.logs| && Readable(uow.view.logs[page[k]])
      requires forall j, k :: 0 <= j < k < |page| ==> page[j] != page[k]
      modifies uow
      ensures uow.Valid() && uow.db == old(uow.db) && uow.view.sheets == old(uow.view.sheets)
      ensures uow.view.logs == LinkedRows(old(uow.view.logs), Ids(page), sheetId)
    {
      ghost var before := uow.view.logs;
      assert IdsMatch(uow.view);
      hide Transaction.Valid, Readable;
      assert LinkedUpTo(before, before, page, 0, sheetId);
      for j := 0 to |page|
        invariant uow.Valid() && uow.db == old(uow.db) && uow.view.sheets == old(uow.view.sheets)
        invariant LinkedUpTo(uow.view.logs, before, page, j, sheetId)
      {
        LinkOneMore(uow.view.logs, before, page, j, sheetId);
        hide LinkedUpTo;
        var tl := uow.ReadLog(page[j]);
        tl.timesheetId := Some(sheetId);
        tl.approvalStatus := PendingManager;
        var _ := uow.UpdateLog(tl);
      }
      assert page[..|page|] == page;
    }

    /** Reopen and submit the week's sheet, or add a new submitted one. */
    method PutSheet(op: Op, existing: Option<nat>, total: real) returns (sheetId: nat)
      requires uow.Valid() && op.SubmitSheet?
      requires existing == FindWeek(uow.view.sheets, op.tenantId, op.userId, op.weekStart)
      requires existing.Some? ==> uow.view.sheets[existing.value].status in {DraftSheet, RejectedSheet}
      modifies uow
      ensures uow.Valid() && uow.db == old(uow.db) && uow.view.logs == old(uow.view.logs)
      ensures sheetId == SheetOf(old(uow.view), op)
      ensures uow.view.sheets == SubmittedSheets(old(uow.view), op, total)
    {
      var sheet: Timesheet;
      if existing.Some? {
        sheetId := existing.value;
        assert uow.view.sheets[sheetId].id == sheetId;
        hide Transaction.Valid;
        sheet := uow.GetSheet(op.tenantId, sheetId);
        sheet.totalHours := total;
        if sheet.status == RejectedSheet {
          var _ := sheet.Reopen();
        }
        var _ := sheet.Submit();
        uow.UpdateSheet(sheet);
      } else {
        sheetId := |uow.session.sheets|;
        assert sheetId == |uow.view.sheets|;
        hide Transaction.Valid;
        sheet := new Timesheet(Sheet(sheetId, op.tenantId, op.userId, op.weekStart, op.weekEnd, total, DraftSheet, None, ""));
        var _ := sheet.Submit();
        uow.AddSheet(sheet.Value());
      }
    }

    method SubmitTimesheet(op: Op, page: seq<nat>) returns (error: Option<Error>)
      requires uow.Valid() && op.SubmitSheet? && op.picked == Ids(page)
      requires forall j, k :: 0 <= j < k < |page| ==> page[j] != page[k]
      requires IsPage(uow.db.logs, op.tenantId, op.userId, op.weekStart, op.weekEnd, op.picked)
      modifies uow, this`published
      ensures uow.Valid()
      ensures Did(Submit(old(uow.db), op), error, old(uow.db), uow.db, old(published), published)
    {
      hide Transaction.Valid, Sum, FindWeek, LinkedRows, PickedHours;
      uow.Enter();
      ghost var db := uow.db;
      var existing, many := uow.GetByUserAndWeek(op.tenantId, op.userId, op.weekStart);
      if many {
        return Some(MultipleSheets);
      }
      if existing.Some? {
        var sheet := uow.GetSheet(op.tenantId, existing.value);
        if sheet.status != DraftSheet && sheet.status != RejectedSheet {
          return Some(RuleViolation);
        }
      }
      PageIsStored(db.logs, op, page);
      var total, ok := TotalPage(page);
      if !ok {
        uow.Rollback();
        return Some(RuleViolation);
      }
      var sheetId := PutSheet(op, existing, total);
      LinkAll(page, sheetId);
      uow.Commit();
      published := published + [TimesheetSubmitted(sheetId, total)];
      return None;
    }
  }

  lemma PageIsStored(logs: seq<Log>, op: Op, page: seq<nat>)
    requires op.SubmitSheet? && op.picked == Ids(page)
    requires IsPage(logs, op.tenantId, op.userId, op.weekStart, op.weekEnd, op.picked)
    ensures forall k :: 0 <= k < |page| ==> page[k] < |logs|
    ensures forall i :: i in page <==> i in op.picked
  {
    forall k | 0 <= k < |page| ensures page[k] < |logs| {
      assert page[k] in Ids(page);
      assert page[k] in IdsInRange(logs, op.tenantId, op.userId, op.weekStart, op.weekEnd);
    }
  }

  /** One more picked row adds its hours once. */
  lemma {:induction false} PickOneMore(logs: seq<Log>, picked: set<nat>, i: nat)
    requires forall k :: 0 <= k < |logs| ==> logs[k].id == k
    requires i < |logs| && i !in picked
    ensures Sum(logs, PickedHours(picked + {i})) == Sum(logs, PickedHours(picked)) + logs[i].hours
  {
    var n := |logs| - 1;
    if i == n {
      SumSame(logs[..n], logs[..n], PickedHours(picked + {i}), PickedHours(picked));
    } else {
      PickOneMore(logs[..n], picked, i);
    }
  }
}
