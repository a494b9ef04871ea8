/**
 What each use case does on a sound database, stated in the terms of its request:
 when it is refused and with which error, every field of the rows it writes, and
 the events it attempts.
 */
module WorkflowRules {
  import opened Wrappers
  import opened Numbers
  import opened Tables
  import opened Workflow
  import opened WorkflowInvariants

  predicate Stored(w: World, tenantId: string, i: nat) {
    i < |w.db.logs| && w.db.logs[i].tenantId == tenantId
  }

  /** Nothing happens but the passing of time. */
  ghost predicate Refuses(w: World, r: Request, error: Error) {
    Next(w, r) == w.(clock := w.clock + r.wait) && Execute(w.db, r.op, w.clock + r.wait) == Refused(error)
  }

  /** The database and the attempted events become these. */
  ghost predicate Does(w: World, r: Request, db: Db, events: seq<Event>) {
    Commits(w, r) && Next(w, r) == World(db, w.clock + r.wait, w.attempts + events)
  }

  /** The log is replaced by the new one, and nothing else is written. */
  ghost predicate Writes(w: World, r: Request, i: nat, l: Log, events: seq<Event>)
    requires i < |w.db.logs|
  {
    Does(w, r, w.db.(logs := w.db.logs[i := l]), events)
  }

  lemma KnownLog(w: World, i: nat)
    requires Sound(w) && i < |w.db.logs|
    ensures w.db.logs[i].id == i && Readable(w.db.logs[i])
    ensures w.db.logs[i].timerStatus == Running ==> w.db.logs[i].timerStartedAt.Some? && w.db.logs[i].timerStartedAt.value <= w.clock
  {
    assert LogSound(w, i);
  }

  // ----------------------------------------------------------------- timers

  /** Whole seconds of the elapsed microseconds. */
  predicate IsElapsed(seconds: int, microseconds: int) {
    seconds * 1_000_000 <= microseconds < (seconds + 1) * 1_000_000
  }

  lemma SecondsAreElapsed(microseconds: nat)
    ensures IsElapsed(WholeSeconds(microseconds), microseconds)
  {
  }

  /** Hours are the seconds' hours, to the nearest hundredth. */
  ghost predicate AreHours(hours: real, seconds: int) {
    NearestCent(hours, seconds as real / 3600.0)
  }

  lemma SecondsAreHours(seconds: int)
    ensures AreHours(HoursOf(seconds), seconds)
  {
    Round2IsNearestCent(seconds as real / 3600.0);
  }

  /** A running timer, and no other, can be paused: it accumulates the segment and is paused. */
  lemma PauseRule(w: World, wait: nat, t: string, i: nat)
    requires Sound(w)
    ensures
      var r := Request(wait, PauseTimer(t, i));
      if !Stored(w, t, i) then Refuses(w, r, NotFound)
      else if w.db.logs[i].timerStatus != Running then Refuses(w, r, RuleViolation)
      else
        i < |Next(w, r).db.logs| &&
        var l, l' := w.db.logs[i], Next(w, r).db.logs[i];
        && Writes(w, r, i, l', [TimerPaused(i, l'.accumulatedSeconds)])
        && l' == l.(timerStatus := Paused, timerStartedAt := None, accumulatedSeconds := l'.accumulatedSeconds, hours := l'.hours)
        && l.timerStartedAt.Some? && IsElapsed(l'.accumulatedSeconds - l.accumulatedSeconds, w.clock + wait - l.timerStartedAt.value)
        && AreHours(l'.hours, l'.accumulatedSeconds)
  {
    hide HoursOf, WholeSeconds, Sound, AreHours, IsElapsed, Create, Start, Submit, ApproveSheetNow, RejectSheetNow, TimerSound, Readable;
    if Stored(w, t, i) {
      KnownLog(w, i);
      var l := w.db.logs[i];
      OneLogOutcome(w, PauseTimer(t, i), w.clock + wait);
      if l.timerStatus == Running {
        var seconds := WholeSeconds(w.clock + wait - l.timerStartedAt.value);
        SecondsAreElapsed(w.clock + wait - l.timerStartedAt.value);
        SecondsAreHours(l.accumulatedSeconds + seconds);
      }
    }
  }

  /** A paused timer, and no other, can be resumed: it runs again from this instant. */
  lemma ResumeRule(w: World, wait: nat, t: string, i: nat)
    requires Sound(w)
    ensures
      var r := Request(wait, ResumeTimer(t, i));
      if !Stored(w, t, i) then Refuses(w, r, NotFound)
      else if w.db.logs[i].timerStatus != Paused then Refuses(w, r, RuleViolation)
      else Writes(w, r, i, w.db.logs[i].(timerStatus := Running, timerStartedAt := Some(w.clock + wait)), [TimerResumed(i)])
  {
    hide HoursOf, WholeSeconds, Sound, Create, Start, Submit, ApproveSheetNow, RejectSheetNow, TimerSound, Readable;
    if Stored(w, t, i) {
      KnownLog(w, i);
      OneLogOutcome(w, ResumeTimer(t, i), w.clock + wait);
    }
  }

  /** A running or paused timer can be stopped: the last segment counts if it was running, and the log waits for approval. */
  lemma StopRule(w: World, wait: nat, t: string, i: nat)
    requires Sound(w)
    ensures
      var r := Request(wait, StopTimer(t, i));
      if !Stored(w, t, i) then Refuses(w, r, NotFound)
      else if w.db.logs[i].timerStatus != Running && w.db.logs[i].timerStatus != Paused then Refuses(w, r, RuleViolation)
      else
        i < |Next(w, r).db.logs| &&
        var l, l' := w.db.logs[i], Next(w, r).db.logs[i];
        && Writes(w, r, i, l', [])
        && l' == l.(timerStatus := Completed, timerStoppedAt := Some(w.clock + wait), approvalStatus := PendingManager,
                    accumulatedSeconds := l'.accumulatedSeconds, hours := l'.hours)
        && (l.timerStatus == Paused ==> l'.accumulatedSeconds == l.accumulatedSeconds)
        && (l.timerStatus == Running ==>
              l.timerStartedAt.Some? && IsElapsed(l'.accumulatedSeconds - l.accumulatedSeconds, w.clock + wait - l.timerStartedAt.value))
        && AreHours(l'.hours, l'.accumulatedSeconds)
  {
    hide HoursOf, WholeSeconds, Sound, AreHours, IsElapsed, Create, Start, Submit, ApproveSheetNow, RejectSheetNow, TimerSound, Readable;
    if Stored(w, t, i) {
      KnownLog(w, i);
      var l := w.db.logs[i];
      OneLogOutcome(w, StopTimer(t, i), w.clock + wait);
      if l.timerStatus == Running {
        var seconds := WholeSeconds(w.clock + wait - l.timerStartedAt.value);
        SecondsAreElapsed(w.clock + wait - l.timerStartedAt.value);
        SecondsAreHours(l.accumulatedSeconds + seconds);
      } else {
        SecondsAreHours(l.accumulatedSeconds);
      }
    }
  }

  // ------------------------------------------------------- edits and verdicts

  /** An edit sets what it names and keeps the rest; hours outside (0, 24] refuse it whole. */
  lemma EditRule(w: World, wait: nat, t: string, i: nat, e: Edit)
    requires Sound(w)
    ensures
      var r := Request(wait, UpdateLog(t, i, e));
      if !Stored(w, t, i) then Refuses(w, r, NotFound)
      else if e.hours.Some? && !(0.0 < e.hours.value <= 24.0) then Refuses(w, r, RuleViolation)
      else
        i < |Next(w, r).db.logs| &&
        var l, l' := w.db.logs[i], Next(w, r).db.logs[i];
        && Writes(w, r, i, l', [])
        && l' == l.(hours := l'.hours, description := l'.description, billable := l'.billable, hourlyRate := l'.hourlyRate)
        && l'.hours == (if e.hours.Some? then e.hours.value else l.hours)
        && l'.description == (if e.description.Some? then e.description.value else l.description)
        && l'.billable == (if e.billable.Some? then e.billable.value else l.billable)
        && l'.hourlyRate == (if e.hourlyRate.Some? then e.hourlyRate else l.hourlyRate)
  {
    hide HoursOf, WholeSeconds, Sound, Create, Start, Submit, ApproveSheetNow, RejectSheetNow, TimerSound, Readable;
    if Stored(w, t, i) {
      KnownLog(w, i);
      OneLogOutcome(w, UpdateLog(t, i, e), w.clock + wait);
    }
  }

  /** A pending or rejected log can be approved, and all of it is announced downstream. */
  lemma ApproveLogRule(w: World, wait: nat, t: string, i: nat)
    requires Sound(w)
    ensures
      var r := Request(wait, ApproveLog(t, i));
      if !Stored(w, t, i) then Refuses(w, r, NotFound)
      else if w.db.logs[i].approvalStatus == Draft || w.db.logs[i].approvalStatus == Approved then Refuses(w, r, RuleViolation)
      else
        var l := w.db.logs[i];
        Writes(w, r, i, l.(approvalStatus := Approved), [TimeLogApproved(
          logId := i, tenantId := t, userId := l.userId, projectId := l.projectId, hours := l.hours, logDate := l.logDate,
          description := l.description, billable := l.billable, hourlyRate := l.hourlyRate)])
  {
    hide HoursOf, WholeSeconds, Sound, Create, Start, Submit, ApproveSheetNow, RejectSheetNow, TimerSound, Readable;
    if Stored(w, t, i) {
      KnownLog(w, i);
      OneLogOutcome(w, ApproveLog(t, i), w.clock + wait);
    }
  }

  lemma RejectLogRule(w: World, wait: nat, t: string, i: nat)
    requires Sound(w)
    ensures
      var r := Request(wait, RejectLog(t, i));
      if !Stored(w, t, i) then Refuses(w, r, NotFound)
      else if w.db.logs[i].approvalStatus != PendingManager then Refuses(w, r, RuleViolation)
      else Writes(w, r, i, w.db.logs[i].(approvalStatus := Rejected), [TimeLogRejected(i)])
  {
    hide HoursOf, WholeSeconds, Sound, Create, Start, Submit, ApproveSheetNow, RejectSheetNow, TimerSound, Readable;
    if Stored(w, t, i) {
      KnownLog(w, i);
      OneLogOutcome(w, RejectLog(t, i), w.clock + wait);
    }
  }

  // ---------------------------------------------------------------- new logs

  /** The request's own rate if it is given and not zero, else the project's. */
  predicate IsRate(rate: Option<real>, r: NewLog) {
    r.project.Some? &&
    if r.hourlyRate.Some? && r.hourlyRate.value != 0.0 then rate == r.hourlyRate else rate == r.project.value.defaultHourlyRate
  }

  function HoursOn(tenantId: string, userId: string, day: int): Log -> real {
    (l: Log) => if l.tenantId == tenantId && l.userId == userId && l.logDate == day then l.hours else 0.0
  }

  lemma DayHoursAreHoursOn(logs: seq<Log>, tenantId: string, userId: string, day: int)
    ensures Sum(logs, DayHours(tenantId, userId, day)) == Sum(logs, HoursOn(tenantId, userId, day))
  {
    SumSame(logs, logs, DayHours(tenantId, userId, day), HoursOn(tenantId, userId, day));
  }

  /** A manual entry needs a project, hours in (0, 24] and room in its day; it waits for approval. */
  lemma CreateRule(w: World, wait: nat, n: NewLog, hours: real)
    ensures
      var r := Request(wait, CreateLog(n, hours));
      if n.project.None? then Refuses(w, r, NotFound)
      else if Sum(w.db.logs, HoursOn(n.tenantId, n.userId, n.logDate)) + hours > 24.0 || !(0.0 < hours <= 24.0)
      then Refuses(w, r, RuleViolation)
      else
        |Next(w, r).db.logs| == |w.db.logs| + 1 &&
        var l := Next(w, r).db.logs[|w.db.logs|];
        && Does(w, r, w.db.(logs := w.db.logs + [l]), [])
        && IsRate(l.hourlyRate, n)
        && l == Log(
             id := |w.db.logs|, tenantId := n.tenantId, userId := n.userId, projectId := n.projectId, taskId := n.taskId,
             hours := hours, logDate := n.logDate, description := n.description, billable := n.billable, hourlyRate := l.hourlyRate,
             timerStartedAt := None, timerStoppedAt := None, timerStatus := Idle, accumulatedSeconds := 0,
             approvalStatus := PendingManager, timesheetId := None, aiCategory := None, aiQualityScore := None, aiSuggestion := None)
  {
    DayHoursAreHoursOn(w.db.logs, n.tenantId, n.userId, n.logDate);
    hide Sum;
  }

  /** A timer needs a project only; it starts now, with no hours, as a draft. */
  lemma StartRule(w: World, wait: nat, n: NewLog)
    ensures
      var r := Request(wait, StartTimer(n));
      if n.project.None? then Refuses(w, r, NotFound)
      else
        |Next(w, r).db.logs| == |w.db.logs| + 1 &&
        var l := Next(w, r).db.logs[|w.db.logs|];
        && Does(w, r, w.db.(logs := w.db.logs + [l]), [TimerStarted(|w.db.logs|)])
        && IsRate(l.hourlyRate, n)
        && l == Log(
             id := |w.db.logs|, tenantId := n.tenantId, userId := n.userId, projectId := n.projectId, taskId := n.taskId,
             hours := 0.0, logDate := n.logDate, description := n.description, billable := n.billable, hourlyRate := l.hourlyRate,
             timerStartedAt := Some(w.clock + wait), timerStoppedAt := None, timerStatus := Running, accumulatedSeconds := 0,
             approvalStatus := Draft, timesheetId := None, aiCategory := None, aiQualityScore := None, aiSuggestion := None)
  {
  }

  // -------------------------------------------------------------- timesheets

  /** The user's logs of the week. */
  function LogsOf(logs: seq<Log>, tenantId: string, userId: string, first: int, last: int): set<nat> {
    set i: nat | i < |logs| && logs[i].tenantId == tenantId && logs[i].userId == userId && first <= logs[i].logDate && logs[i].logDate <= last
  }

  /** The page is all of the week's logs, or fifty of them with none left out that is later than one taken. */
  lemma PageRule(logs: seq<Log>, tenantId: string, userId: string, first: int, last: int, picked: set<nat>)
    ensures
      var all := LogsOf(logs, tenantId, userId, first, last);
      IsPage(logs, tenantId, userId, first, last, picked) <==>
        && picked <= all
        && (if |all| <= 50 then picked == all else |picked| == 50)
        && forall i, j :: i in picked && j in all && j !in picked ==> logs[j].logDate <= logs[i].logDate
  {
    var all := LogsOf(logs, tenantId, userId, first, last);
    assert all == IdsInRange(logs, tenantId, userId, first, last);
    if picked <= all {
      assert all == picked + (all - picked);
      assert |all| == |picked| + |all - picked|;
      if |picked| == |all| {
        assert all - picked == {};
      }
    }
  }

  function HoursPicked(picked: set<nat>): Log -> real {
    (l: Log) => if l.id in picked then l.hours else 0.0
  }

  /** Exactly the logs of the page point to the sheet and wait for approval. */
  ghost predicate LinksPage(before: seq<Log>, after: seq<Log>, picked: set<nat>, s: nat) {
    && |after| == |before|
    && forall i: nat :: i < |before| ==>
         after[i] == if i in picked then before[i].(timesheetId := Some(s), approvalStatus := PendingManager) else before[i]
  }

  predicate IsWeek(s: Sheet, op: Op)
    requires op.SubmitSheet?
  {
    s.tenantId == op.tenantId && s.userId == op.userId && s.weekStart == op.weekStart
  }

  lemma SubmitUnfolds(w: World, r: Request)
    requires Sound(w) && r.op.SubmitSheet?
    ensures Commits(w, r) <==> MaySubmit(w.db, r.op)
    ensures !Commits(w, r) ==> Refuses(w, r, RuleViolation)
    ensures Commits(w, r) ==> Does(w, r,
      Db(LinkedRows(w.db.logs, r.op.picked, SheetOf(w.db, r.op)), SubmittedSheets(w.db, r.op, Sum(w.db.logs, PickedHours(r.op.picked)))),
      [TimesheetSubmitted(SheetOf(w.db, r.op), Sum(w.db.logs, PickedHours(r.op.picked)))])
  {
    SubmitCommitsIff(w, r.op);
    hide Sum, FindWeek, LinkedRows, SubmittedSheets, SheetOf;
  }

  lemma LinkedRowsLink(w: World, picked: set<nat>, s: nat)
    requires Sound(w)
    ensures LinksPage(w.db.logs, LinkedRows(w.db.logs, picked, s), picked, s)
    ensures Sum(w.db.logs, PickedHours(picked)) == Sum(w.db.logs, HoursPicked(picked))
  {
    forall i: nat | i < |w.db.logs| ensures w.db.logs[i].id == i {
      KnownLog(w, i);
    }
    SumSame(w.db.logs, w.db.logs, PickedHours(picked), HoursPicked(picked));
  }

  /** A week without a sheet gets a new one, submitted with the sum of the page's hours. */
  lemma FirstSubmitRule(w: World, r: Request)
    requires Sound(w) && r.op.SubmitSheet? && forall k :: 0 <= k < |w.db.sheets| ==> !IsWeek(w.db.sheets[k], r.op)
    ensures
      var n, total := |w.db.sheets|, Sum(w.db.logs, HoursPicked(r.op.picked));
      && |Next(w, r).db.logs| == |w.db.logs| && LinksPage(w.db.logs, Next(w, r).db.logs, r.op.picked, n)
      && Does(w, r,
           Db(Next(w, r).db.logs, w.db.sheets + [Sheet(
             id := n, tenantId := r.op.tenantId, userId := r.op.userId, weekStart := r.op.weekStart, weekEnd := r.op.weekEnd,
             totalHours := total, status := Submitted, approvedBy := None, rejectionReason := "")]),
           [TimesheetSubmitted(n, total)])
  {
    assert FindWeek(w.db.sheets, r.op.tenantId, r.op.userId, r.op.weekStart).None?;
    hide FindWeek, Execute, LinksPage, LinkedRows, Sum, Sound;
    SubmitUnfolds(w, r);
    LinkedRowsLink(w, r.op.picked, |w.db.sheets|);
  }

  /** A week's rejected sheet is reopened and submitted anew; one that is submitted or approved refuses. */
  lemma ResubmitRule(w: World, r: Request, k: nat)
    requires Sound(w) && r.op.SubmitSheet? && k < |w.db.sheets| && IsWeek(w.db.sheets[k], r.op)
    ensures
      var s, total := w.db.sheets[k], Sum(w.db.logs, HoursPicked(r.op.picked));
      if s.status != RejectedSheet then Refuses(w, r, RuleViolation)
      else
        && |Next(w, r).db.logs| == |w.db.logs| && LinksPage(w.db.logs, Next(w, r).db.logs, r.op.picked, k)
        && Does(w, r,
             Db(Next(w, r).db.logs,
                w.db.sheets[k := s.(totalHours := total, status := Submitted, approvedBy := None, rejectionReason := "")]),
             [TimesheetSubmitted(k, total)])
  {
    WeekIsFound(w, r.op, k);
    hide FindWeek, Execute, LinksPage, LinkedRows, Sum;
    SubmitUnfolds(w, r);
    LinkedRowsLink(w, r.op.picked, k);
  }

  lemma WeekIsFound(w: World, op: Op, k: nat)
    requires Sound(w) && op.SubmitSheet? && k < |w.db.sheets| && IsWeek(w.db.sheets[k], op)
    ensures FindWeek(w.db.sheets, op.tenantId, op.userId, op.weekStart) == Some(k)
  {
    var found := FindWeek(w.db.sheets, op.tenantId, op.userId, op.weekStart);
    assert found.Some?;
    hide FindWeek;
    assert OneSheetPerWeek(w.db.sheets);
  }

  // --------------------------------------------------------------- decisions

  /** The tenant's log is linked to the sheet. */
  predicate OnSheet(l: Log, tenantId: string, s: nat) {
    l.tenantId == tenantId && l.timesheetId == Some(s)
  }

  /** Exactly the sheet's logs take the status. */
  ghost predicate Cascades(before: seq<Log>, after: seq<Log>, tenantId: string, s: nat, status: ApprovalStatus) {
    && |after| == |before|
    && forall i: nat :: i < |before| ==>
         after[i] == if OnSheet(before[i], tenantId, s) then before[i].(approvalStatus := status) else before[i]
  }

  /** The sheet's logs, in row order. */
  ghost predicate AreLogsOf(ids: seq<nat>, logs: seq<Log>, tenantId: string, s: nat) {
    && (forall i: nat :: i in ids <==> i < |logs| && OnSheet(logs[i], tenantId, s))
    && forall j, k :: 0 <= j < k < |ids| ==> ids[j] < ids[k]
  }

  function SheetLogs(logs: seq<Log>, tenantId: string, s: nat): seq<nat> {
    if logs == [] then []
    else
      var n := |logs| - 1;
      SheetLogs(logs[..n], tenantId, s) + if OnSheet(logs[n], tenantId, s) then [n] else []
  }

  lemma {:induction false} SheetLogsAreListed(logs: seq<Log>, tenantId: string, s: nat)
    ensures AreLogsOf(SheetLogs(logs, tenantId, s), logs, tenantId, s)
  {
    if logs == [] {
    } else {
      var n := |logs| - 1;
      var init := SheetLogs(logs[..n], tenantId, s);
      SheetLogsAreListed(logs[..n], tenantId, s);
      if OnSheet(logs[n], tenantId, s) {
        LogsGrow(init, logs, tenantId, s);
      } else {
        assert init + [] == init;
        assert forall i: nat :: i < n ==> logs[..n][i] == logs[i];
      }
    }
  }

  lemma LogsGrow(init: seq<nat>, logs: seq<Log>, tenantId: string, s: nat)
    requires logs != [] && AreLogsOf(init, logs[..|logs| - 1], tenantId, s) && OnSheet(logs[|logs| - 1], tenantId, s)
    ensures AreLogsOf(init + [|logs| - 1], logs, tenantId, s)
  {
    var n := |logs| - 1;
    hide OnSheet;
    assert forall j :: 0 <= j < |init| ==> init[j] in init;
    assert forall i: nat :: i in init + [n] <==> i in init || i == n;
    assert forall i: nat :: i < n ==> logs[..n][i] == logs[i];
  }

  /** One event for each of the sheet's logs, in order. */
  ghost predicate TellsOfLogs(events: seq<Event>, ids: seq<nat>, logs: seq<Log>, tells: (nat, Log) -> Event) {
    |events| == |ids| && forall k :: 0 <= k < |ids| ==> ids[k] < |logs| && events[k] == tells(ids[k], logs[ids[k]])
  }

  lemma {:induction false} EventsTell(logs: seq<Log>, tenantId: string, s: nat, event: Log -> Event, tells: (nat, Log) -> Event)
    requires forall i: nat :: i < |logs| && OnSheet(logs[i], tenantId, s) ==> event(logs[i]) == tells(i, logs[i])
    ensures TellsOfLogs(EventsFor(logs, tenantId, s, event), SheetLogs(logs, tenantId, s), logs, tells)
  {
    if logs == [] {
    } else {
      var n := |logs| - 1;
      assert forall i: nat :: i < n ==> logs[..n][i] == logs[i];
      EventsTell(logs[..n], tenantId, s, event, tells);
      SheetLogsAreListed(logs[..n], tenantId, s);
      var ids := SheetLogs(logs[..n], tenantId, s);
      assert forall k :: 0 <= k < |ids| ==> ids[k] in ids;
    }
  }

  /** The approved log in full, under the tenant of the request. */
  function ApprovedOn(tenantId: string): (nat, Log) -> Event {
    (i: nat, l: Log) => TimeLogApproved(
      logId := i, tenantId := tenantId, userId := l.userId, projectId := l.projectId, hours := l.hours, logDate := l.logDate,
      description := l.description, billable := l.billable, hourlyRate := l.hourlyRate)
  }

  function RejectedLog(): (nat, Log) -> Event {
    (i: nat, l: Log) => TimeLogRejected(i)
  }

  lemma CascadedRowsCascade(logs: seq<Log>, tenantId: string, s: nat, status: ApprovalStatus)
    ensures Cascades(logs, CascadedRows(logs, tenantId, s, status), tenantId, s, status)
  {
  }

  /** Some log of the sheet has none of these statuses. */
  predicate Blocked(logs: seq<Log>, tenantId: string, s: nat, open: set<ApprovalStatus>) {
    exists i :: 0 <= i < |logs| && OnSheet(logs[i], tenantId, s) && logs[i].approvalStatus !in open
  }

  lemma LinkedAreOnSheet(w: World, t: string, s: nat)
    requires Sound(w)
    ensures AllLinked(w.db, t, s, CanApprove()) <==> !Blocked(w.db.logs, t, s, {PendingManager, Rejected})
    ensures AllLinked(w.db, t, s, CanReject()) <==> !Blocked(w.db.logs, t, s, {PendingManager})
  {
    forall i: nat | i < |w.db.logs|
      ensures LinkedTo(w.db.logs[i], t, s) == OnSheet(w.db.logs[i], t, s)
      ensures CanApprove()(w.db.logs[i]) <==> w.db.logs[i].approvalStatus in {PendingManager, Rejected}
      ensures CanReject()(w.db.logs[i]) <==> w.db.logs[i].approvalStatus in {PendingManager}
    {
      KnownLog(w, i);
    }
    hide LinkedTo, OnSheet, CanApprove, CanReject, Sound;
  }

  /** The announcements of a decision, in row order. */
  lemma DecisionTells(w: World, t: string, s: nat)
    requires Sound(w)
    ensures TellsOfLogs(EventsFor(w.db.logs, t, s, ApprovedEvent()), SheetLogs(w.db.logs, t, s), w.db.logs, ApprovedOn(t))
    ensures TellsOfLogs(EventsFor(w.db.logs, t, s, RejectedEvent()), SheetLogs(w.db.logs, t, s), w.db.logs, RejectedLog())
  {
    forall i: nat | i < |w.db.logs| ensures w.db.logs[i].id == i {
      KnownLog(w, i);
    }
    hide Sound, TellsOfLogs;
    EventsTell(w.db.logs, t, s, ApprovedEvent(), ApprovedOn(t));
    EventsTell(w.db.logs, t, s, RejectedEvent(), RejectedLog());
  }

  /**
   Approval needs a submitted sheet whose logs are all pending or rejected.  It
   approves sheet and logs, and announces the sheet and then each log in full.
   */
  lemma ApproveSheetRule(w: World, wait: nat, t: string, s: nat, approver: string) returns (ids: seq<nat>, events: seq<Event>)
    requires Sound(w)
    ensures AreLogsOf(ids, w.db.logs, t, s) && TellsOfLogs(events, ids, w.db.logs, ApprovedOn(t))
    ensures
      var r := Request(wait, ApproveSheet(t, s, approver));
      if s >= |w.db.sheets| || w.db.sheets[s].tenantId != t then Refuses(w, r, NotFound)
      else if w.db.sheets[s].status != Submitted then Refuses(w, r, InvalidTransition)
      else if Blocked(w.db.logs, t, s, {PendingManager, Rejected}) then Refuses(w, r, RuleViolation)
      else
        && Cascades(w.db.logs, Next(w, r).db.logs, t, s, Approved)
        && Does(w, r,
             Db(Next(w, r).db.logs, w.db.sheets[s := w.db.sheets[s].(status := ApprovedSheet, approvedBy := Some(approver))]),
             [TimesheetApproved(s)] + events)
  {
    hide SheetLogs, EventsFor, AreLogsOf, TellsOfLogs, CascadedRows, Cascades, AllLinked, Blocked, Sound;
    ids, events := SheetLogs(w.db.logs, t, s), EventsFor(w.db.logs, t, s, ApprovedEvent());
    SheetLogsAreListed(w.db.logs, t, s);
    DecisionTells(w, t, s);
    CascadedRowsCascade(w.db.logs, t, s, Approved);
    LinkedAreOnSheet(w, t, s);
  }

  /** Rejection needs a submitted sheet whose logs are all pending. */
  lemma RejectSheetRule(w: World, wait: nat, t: string, s: nat, approver: string, reason: string) returns (ids: seq<nat>, events: seq<Event>)
    requires Sound(w)
    ensures AreLogsOf(ids, w.db.logs, t, s) && TellsOfLogs(events, ids, w.db.logs, RejectedLog())
    ensures
      var r := Request(wait, RejectSheet(t, s, approver, reason));
      if s >= |w.db.sheets| || w.db.sheets[s].tenantId != t then Refuses(w, r, NotFound)
      else if w.db.sheets[s].status != Submitted then Refuses(w, r, InvalidTransition)
      else if Blocked(w.db.logs, t, s, {PendingManager}) then Refuses(w, r, RuleViolation)
      else
        && Cascades(w.db.logs, Next(w, r).db.logs, t, s, Rejected)
        && Does(w, r,
             Db(Next(w, r).db.logs,
                w.db.sheets[s := w.db.sheets[s].(status := RejectedSheet, approvedBy := Some(approver), rejectionReason := reason)]),
             [TimesheetRejected(s)] + events)
  {
    hide SheetLogs, EventsFor, AreLogsOf, TellsOfLogs, CascadedRows, Cascades, AllLinked, Blocked, Sound;
    ids, events := SheetLogs(w.db.logs, t, s), EventsFor(w.db.logs, t, s, RejectedEvent());
    SheetLogsAreListed(w.db.logs, t, s);
    DecisionTells(w, t, s);
    CascadedRowsCascade(w.db.logs, t, s, Rejected);
    LinkedAreOnSheet(w, t, s);
  }
}
