/** What every run of the time-log and timesheet use cases keeps. */
module WorkflowInvariants {
  import opened Wrappers
  import opened Numbers
  import opened Tables
  import opened Workflow

  /** Timer state and hours of one log, seen at time `now`. */
  ghost predicate TimerSound(l: Log, now: int) {
    && Readable(l)
    && 0 <= l.accumulatedSeconds
    && (l.timerStatus == Running ==> l.timerStartedAt.Some? && l.timerStartedAt.value <= now)
    && (l.timerStatus == Idle ==> l.timerStartedAt.None?)
  }

  /** A linked log belongs to its sheet's user and has left the draft state. */
  ghost predicate LinkSound(l: Log, sheets: seq<Sheet>) {
    l.timesheetId.Some? ==>
      && l.timesheetId.value < |sheets|
      && sheets[l.timesheetId.value].tenantId == l.tenantId
      && sheets[l.timesheetId.value].userId == l.userId
      && l.approvalStatus != Draft
  }

  ghost predicate LogSound(w: World, i: nat)
    requires i < |w.db.logs|
  {
    w.db.logs[i].id == i && TimerSound(w.db.logs[i], w.clock) && LinkSound(w.db.logs[i], w.db.sheets)
  }

  ghost predicate Sound(w: World) {
    && (forall i: nat :: i < |w.db.logs| ==> LogSound(w, i))
    && (forall s :: 0 <= s < |w.db.sheets| ==> w.db.sheets[s].id == s && w.db.sheets[s].status != DraftSheet)
    && OneSheetPerWeek(w.db.sheets)
  }

  lemma HoursNotNegative(acc: int)
    requires 0 <= acc
    ensures 0.0 <= HoursOf(acc)
  {
    Round2Monotone(0.0, acc as real / 3600.0);
    assert CentsOf(0) == 0.0;
    CentsAreFixed(0.0);
  }

  /** Timer operations on a sound log never fail for lack of a start time, and keep the log sound. */
  lemma TimerOpsKeepSound(l: Log, before: int, now: int)
    requires TimerSound(l, before) && before <= now
    ensures l.timerStatus == Running <==> TimerPausedAt(l, now).Some?
    ensures TimerPausedAt(l, now).Some? ==> TimerSound(TimerPausedAt(l, now).value, now)
    ensures TimerResumedAt(l, now).Some? ==> TimerSound(TimerResumedAt(l, now).value, now)
    ensures TimerStoppedAt(l, now).Some? ==> TimerSound(TimerStoppedAt(l, now).value, now)
  {
    if TimerPausedAt(l, now).Some? {
      HoursNotNegative(TimerPausedAt(l, now).value.accumulatedSeconds);
    }
    if TimerStoppedAt(l, now).Some? {
      HoursNotNegative(TimerStoppedAt(l, now).value.accumulatedSeconds);
    }
  }

  /** The log an operation on one log leaves behind. */
  function Changed(op: Op, l: Log, now: int): Option<Log> {
    match op
    case PauseTimer(_, _) => TimerPausedAt(l, now)
    case ResumeTimer(_, _) => TimerResumedAt(l, now)
    case StopTimer(_, _) => TimerStoppedAt(l, now)
    case UpdateLog(_, _, e) => Edited(l, e)
    case ApproveLog(_, _) => LogApproved(l)
    case RejectLog(_, _) => LogRejected(l)
    case _ => None
  }

  predicate OnOneLog(op: Op) {
    op.PauseTimer? || op.ResumeTimer? || op.StopTimer? || op.UpdateLog? || op.ApproveLog? || op.RejectLog?
  }

  lemma ChangedKeepsTimer(op: Op, l: Log, before: int, now: int)
    requires TimerSound(l, before) && before <= now && Changed(op, l, now).Some?
    ensures TimerSound(Changed(op, l, now).value, now) && Changed(op, l, now).value.id == l.id
  {
    hide HoursOf, WholeSeconds;
    TimerOpsKeepSound(l, before, now);
  }

  lemma TimerIsReadable(l: Log, now: int)
    requires TimerSound(l, now)
    ensures Readable(l)
  {
  }

  /** On a sound database a single-log operation commits exactly when the entity allows it. */
  lemma OneLogOutcome(w: World, op: Op, now: int)
    requires Sound(w) && w.clock <= now && OnOneLog(op)
    ensures
      var out := Execute(w.db, op, now);
      if !HasLog(w.db, op.tenantId, op.logId) then out == Refused(NotFound)
      else
        var c := Changed(op, w.db.logs[op.logId], now);
        if c.None? then out == Refused(RuleViolation)
        else out.Committed? && out.db == w.db.(logs := w.db.logs[op.logId := c.value]) && TimerSound(c.value, now)
             && c.value.id == op.logId
  {
    hide Readable, TimerSound, LinkSound, OneSheetPerWeek, Create, Start, Submit, ApproveSheetNow, RejectSheetNow,
         TimerPausedAt, TimerResumedAt, TimerStoppedAt, Edited, LogApproved, LogRejected;
    if HasLog(w.db, op.tenantId, op.logId) {
      var l := w.db.logs[op.logId];
      assert LogSound(w, op.logId);
      TimerIsReadable(l, w.clock);
      if Changed(op, l, now).Some? {
        ChangedKeepsTimer(op, l, w.clock, now);
        TimerIsReadable(Changed(op, l, now).value, now);
      }
    }
  }

  lemma LogKnown(w: World, i: nat)
    requires Sound(w) && i < |w.db.logs|
    ensures w.db.logs[i].id == i
    ensures w.db.logs[i].timesheetId.Some? ==> w.db.logs[i].timesheetId.value < |w.db.sheets|
  {
    assert LogSound(w, i);
  }

  lemma WaitKeepsSound(w: World, now: int)
    requires Sound(w) && w.clock <= now
    ensures Sound(w.(clock := now))
  {
    forall i: nat | i < |w.db.logs| ensures LogSound(w.(clock := now), i) {
      assert LogSound(w, i);
    }
  }

  lemma ChangedKeepsSheet(op: Op, l: Log, now: int)
    requires Changed(op, l, now).Some?
    ensures Changed(op, l, now).value.timesheetId == l.timesheetId
  {
    hide HoursOf, WholeSeconds;
  }

  lemma ChangedKeepsLink(op: Op, l: Log, now: int, sheets: seq<Sheet>)
    requires LinkSound(l, sheets) && Changed(op, l, now).Some?
    ensures LinkSound(Changed(op, l, now).value, sheets)
  {
  }

  lemma ReplacedLogSound(w: World, i: nat, l: Log)
    requires Sound(w) && i < |w.db.logs| && l.id == i && TimerSound(l, w.clock) && LinkSound(l, w.db.sheets)
    ensures Sound(w.(db := w.db.(logs := w.db.logs[i := l])))
  {
    hide OneSheetPerWeek, TimerSound, LinkSound;
    var w' := w.(db := w.db.(logs := w.db.logs[i := l]));
    forall k: nat | k < |w'.db.logs| ensures LogSound(w', k) {
      assert LogSound(w, k);
    }
  }

  lemma AttemptsKeepSound(w: World, attempts: seq<Event>)
    requires Sound(w)
    ensures Sound(w.(attempts := attempts))
  {
    hide OneSheetPerWeek, TimerSound, LinkSound;
    forall i: nat | i < |w.db.logs| ensures LogSound(w.(attempts := attempts), i) {
      assert LogSound(w, i);
    }
  }

  lemma OneLogKeepsSound(w: World, r: Request)
    requires Sound(w) && OnOneLog(r.op)
    ensures Sound(Next(w, r))
  {
    hide Execute, Changed, OneSheetPerWeek, TimerSound, LinkSound;
    var now := w.clock + r.wait;
    OneLogOutcome(w, r.op, now);
    WaitKeepsSound(w, now);
    if Execute(w.db, r.op, now).Committed? {
      var i := r.op.logId;
      assert LogSound(w, i);
      ChangedKeepsLink(r.op, w.db.logs[i], now, w.db.sheets);
      hide Sound;
      ReplacedLogSound(w.(clock := now), i, Changed(r.op, w.db.logs[i], now).value);
      AttemptsKeepSound(w.(clock := now, db := Next(w, r).db), Next(w, r).attempts);
    }
  }

  lemma NewLogKeepsSound(w: World, r: Request)
    requires Sound(w) && (r.op.CreateLog? || r.op.StartTimer?)
    ensures Sound(Next(w, r))
  {
    var w' := Next(w, r);
    WaitKeepsSound(w, w'.clock);
    forall i: nat | i < |w'.db.logs| ensures LogSound(w', i) {
      if i < |w.db.logs| {
        assert LogSound(w, i);
      }
    }
  }

  predicate SameWeek(s: Sheet, t: Sheet) {
    s.id == t.id && s.tenantId == t.tenantId && s.userId == t.userId && s.weekStart == t.weekStart
  }

  /** A submission that commits links its page to one sheet: the week's own, or a new last one. */
  lemma SubmissionEffect(db: Db, op: Op)
    requires op.SubmitSheet? && Submit(db, op).Committed?
    requires forall s :: 0 <= s < |db.sheets| ==> db.sheets[s].id == s
    ensures
      var db', s := Submit(db, op).db, SheetOf(db, op);
      && s < |db'.sheets| && db'.sheets[s].id == s && db'.sheets[s].status == Submitted
      && IsWeekOf(db'.sheets[s], op.tenantId, op.userId, op.weekStart)
      && db'.logs == LinkedRows(db.logs, op.picked, s)
      && (if s < |db.sheets| then db'.sheets == db.sheets[s := db'.sheets[s]] && SameWeek(db'.sheets[s], db.sheets[s])
          else db'.sheets == db.sheets + [db'.sheets[s]]
               && forall k :: 0 <= k < |db.sheets| ==> !IsWeekOf(db.sheets[k], op.tenantId, op.userId, op.weekStart))
  {
    hide Sum;
  }

  lemma LinkedSound(l: Log, picked: set<nat>, s: nat, now: int, sheets: seq<Sheet>, sheets': seq<Sheet>)
    requires TimerSound(l, now) && LinkSound(l, sheets)
    requires |sheets| <= |sheets'| && forall k :: 0 <= k < |sheets| ==> SameWeek(sheets'[k], sheets[k])
    requires l.id in picked ==> s < |sheets'| && sheets'[s].tenantId == l.tenantId && sheets'[s].userId == l.userId
    ensures
      var l' := Linked(l, picked, s);
      TimerSound(l', now) && LinkSound(l', sheets') && l'.id == l.id
  {
  }

  lemma AddedSheet(sheets: seq<Sheet>, x: Sheet)
    requires OneSheetPerWeek(sheets) && forall k :: 0 <= k < |sheets| ==> !IsWeekOf(sheets[k], x.tenantId, x.userId, x.weekStart)
    ensures OneSheetPerWeek(sheets + [x])
  {
  }

  lemma SubmissionKeepsSheets(w: World, op: Op)
    requires Sound(w) && op.SubmitSheet? && Submit(w.db, op).Committed?
    ensures
      var sheets := Submit(w.db, op).db.sheets;
      && OneSheetPerWeek(sheets) && |w.db.sheets| <= |sheets|
      && (forall k :: 0 <= k < |sheets| ==> sheets[k].id == k && sheets[k].status != DraftSheet)
      && (forall k :: 0 <= k < |w.db.sheets| ==> SameWeek(sheets[k], w.db.sheets[k]))
  {
    hide Submit, SheetOf, OneSheetPerWeek;
    SubmissionEffect(w.db, op);
    var s, sheets := SheetOf(w.db, op), Submit(w.db, op).db.sheets;
    if s < |w.db.sheets| {
      ReplacedSheet(w.db.sheets, s, sheets[s]);
    } else {
      AddedSheet(w.db.sheets, sheets[s]);
    }
  }

  lemma SubmitKeepsSound(w: World, r: Request)
    requires Sound(w) && r.op.SubmitSheet? && Possible(w, r)
    ensures Sound(Next(w, r))
  {
    var w' := Next(w, r);
    assert Execute(w.db, r.op, w'.clock) == Submit(w.db, r.op);
    hide Execute, Submit, SheetOf, TimerSound, LinkSound, Linked, OneSheetPerWeek;
    WaitKeepsSound(w, w'.clock);
    if Submit(w.db, r.op).Committed? {
      SubmissionKeepsSheets(w, r.op);
      SubmissionEffect(w.db, r.op);
      var s := SheetOf(w.db, r.op);
      forall i: nat | i < |w'.db.logs| ensures LogSound(w', i) {
        assert LogSound(w.(clock := w'.clock), i);
        assert i in r.op.picked ==> i in IdsInRange(w.db.logs, r.op.tenantId, r.op.userId, r.op.weekStart, r.op.weekEnd);
        LinkedSound(w.db.logs[i], r.op.picked, s, w'.clock, w.db.sheets, w'.db.sheets);
      }
    }
  }

  /** A decision that commits cascades over the logs and replaces one sheet by a decided one of the same week. */
  lemma DecisionEffect(db: Db, op: Op, now: int)
    requires (op.ApproveSheet? || op.RejectSheet?) && Execute(db, op, now).Committed?
    ensures
      var db' := Execute(db, op, now).db;
      && op.sheetId < |db.sheets| == |db'.sheets|
      && db'.logs == CascadedRows(db.logs, op.tenantId, op.sheetId, if op.ApproveSheet? then Approved else Rejected)
      && db'.sheets == db.sheets[op.sheetId := db'.sheets[op.sheetId]]
      && SameWeek(db'.sheets[op.sheetId], db.sheets[op.sheetId]) && db'.sheets[op.sheetId].status != DraftSheet
  {
    hide EventsFor, AllLinked;
  }

  lemma CascadedSound(l: Log, op: Op, status: ApprovalStatus, now: int, sheets: seq<Sheet>, sheets': seq<Sheet>)
    requires (op.ApproveSheet? || op.RejectSheet?) && status != Draft
    requires TimerSound(l, now) && LinkSound(l, sheets)
    requires |sheets| == |sheets'| && forall k :: 0 <= k < |sheets| ==> SameWeek(sheets'[k], sheets[k])
    ensures
      var l' := Cascaded(l, op.tenantId, op.sheetId, status);
      TimerSound(l', now) && LinkSound(l', sheets')
  {
  }

  lemma ReplacedSheet(sheets: seq<Sheet>, s: nat, x: Sheet)
    requires s < |sheets| && OneSheetPerWeek(sheets) && SameWeek(x, sheets[s])
    ensures OneSheetPerWeek(sheets[s := x])
  {
  }

  lemma SheetDecisionKeepsSound(w: World, r: Request)
    requires Sound(w) && (r.op.ApproveSheet? || r.op.RejectSheet?)
    ensures Sound(Next(w, r))
  {
    hide Execute, OneSheetPerWeek, TimerSound, LinkSound, Cascaded;
    var w' := Next(w, r);
    WaitKeepsSound(w, w'.clock);
    if Execute(w.db, r.op, w'.clock).Committed? {
      DecisionEffect(w.db, r.op, w'.clock);
      ReplacedSheet(w.db.sheets, r.op.sheetId, w'.db.sheets[r.op.sheetId]);
      var status := if r.op.ApproveSheet? then Approved else Rejected;
      forall i: nat | i < |w'.db.logs| ensures LogSound(w', i) {
        assert LogSound(w.(clock := w'.clock), i);
        CascadedSound(w.db.logs[i], r.op, status, w'.clock, w.db.sheets, w'.db.sheets);
        CascadedId(w.db.logs[i], r.op, status);
      }
    }
  }

  lemma CascadedId(l: Log, op: Op, status: ApprovalStatus)
    requires op.ApproveSheet? || op.RejectSheet?
    ensures Cascaded(l, op.tenantId, op.sheetId, status).id == l.id
  {
  }

  lemma NextKeepsSound(w: World, r: Request)
    requires Sound(w) && Possible(w, r)
    ensures Sound(Next(w, r))
  {
    match r.op
    case CreateLog(_, _) => NewLogKeepsSound(w, r);
    case StartTimer(_) => NewLogKeepsSound(w, r);
    case SubmitSheet(_, _, _, _, _) => SubmitKeepsSound(w, r);
    case ApproveSheet(_, _, _) => SheetDecisionKeepsSound(w, r);
    case RejectSheet(_, _, _, _) => SheetDecisionKeepsSound(w, r);
    case _ => OneLogKeepsSound(w, r);
  }

  /** Every run keeps every log readable, every running timer started, every link inside its tenant and user. */
  lemma {:induction false} EveryRunIsSound(run: seq<Request>)
    requires IsRun(run)
    ensures Sound(After(run))
  {
    if run == [] {
    } else {
      EveryRunIsSound(run[..|run| - 1]);
      NextKeepsSound(After(run[..|run| - 1]), run[|run| - 1]);
    }
  }

  // --------------------------------------------------- one log, one request

  /** What a committed request leaves of one existing log. */
  function LogAfter(l: Log, op: Op, sheetId: nat, now: int): Log {
    match op
    case CreateLog(_, _) => l
    case StartTimer(_) => l
    case SubmitSheet(_, _, _, _, picked) => Linked(l, picked, sheetId)
    case ApproveSheet(t, s, _) => Cascaded(l, t, s, Approved)
    case RejectSheet(t, s, _, _) => Cascaded(l, t, s, Rejected)
    case _ => if l.id == op.logId then Changed(op, l, now).GetOr(l) else l
  }

  predicate Commits(w: World, r: Request) {
    Execute(w.db, r.op, w.clock + r.wait).Committed?
  }

  lemma LogAfterRequest(w: World, r: Request, i: nat)
    requires Sound(w) && i < |w.db.logs|
    ensures i < |Next(w, r).db.logs| && w.db.logs[i].id == i
    ensures !Commits(w, r) ==> Next(w, r).db.logs[i] == w.db.logs[i]
    ensures Commits(w, r) ==>
      Next(w, r).db.logs[i]
        == LogAfter(w.db.logs[i], r.op, if r.op.SubmitSheet? then SheetOf(w.db, r.op) else 0, w.clock + r.wait)
  {
    assert !Commits(w, r) ==> Next(w, r).db == w.db;
    assert LogSound(w, i);
    hide Next, Commits, Sound, Changed, SheetOf, Cascaded, Linked, TimerSound, LinkSound, StartsFresh;
    if Commits(w, r) {
      if OnOneLog(r.op) {
        OneLogEffect(w, r);
      } else if r.op.ApproveSheet? || r.op.RejectSheet? {
        DecisionOnLogs(w, r);
      } else if r.op.SubmitSheet? {
        SubmissionOnLogs(w, r);
      } else {
        CreationOnLogs(w, r);
        assert Next(w, r).db.logs[..|w.db.logs|][i] == Next(w, r).db.logs[i];
      }
    }
  }

  /** The hours a request on one log leaves, read off the entity's guards. */
  function HoursAfter(op: Op, l: Log, now: int): real {
    match op
    case PauseTimer(_, _) =>
      if l.timerStatus == Running && l.timerStartedAt.Some?
      then HoursOf(l.accumulatedSeconds + WholeSeconds(now - l.timerStartedAt.value)) else l.hours
    case StopTimer(_, _) =>
      if l.timerStatus == Running && l.timerStartedAt.Some?
      then HoursOf(l.accumulatedSeconds + WholeSeconds(now - l.timerStartedAt.value))
      else if l.timerStatus == Running || l.timerStatus == Paused then HoursOf(l.accumulatedSeconds) else l.hours
    case UpdateLog(_, _, e) =>
      if e.hours.Some? && 0.0 < e.hours.value <= MAX_DAILY_HOURS then e.hours.value else l.hours
    case _ => l.hours
  }

  lemma HoursAfterIsChanged(op: Op, l: Log, now: int)
    requires OnOneLog(op)
    ensures HoursAfter(op, l, now) == Changed(op, l, now).GetOr(l).hours
  {
    hide HoursOf, WholeSeconds;
  }

  /** A submission goes ahead for a week without a sheet, or with a draft or rejected one. */
  predicate MaySubmit(db: Db, op: Op)
    requires op.SubmitSheet?
  {
    var week := FindWeek(db.sheets, op.tenantId, op.userId, op.weekStart);
    week.None? || db.sheets[week.value].status == DraftSheet || db.sheets[week.value].status == RejectedSheet
  }

  lemma SubmitCommitsIff(w: World, op: Op)
    requires Sound(w) && op.SubmitSheet?
    ensures Submit(w.db, op).Committed? <==> MaySubmit(w.db, op)
  {
    forall i | 0 <= i < |w.db.logs| ensures Readable(w.db.logs[i]) {
      assert LogSound(w, i);
    }
    hide Sum, FindWeek, Readable;
  }

  /** What a new log looks like at the time of its request. */
  predicate StartsFresh(l: Log, id: nat, now: int) {
    && l.id == id && l.accumulatedSeconds == 0 && l.approvalStatus != Approved && l.timesheetId.None?
    && (l.timerStatus == Idle || (l.timerStatus == Running && l.timerStartedAt == Some(now) && l.hours == 0.0))
  }

  lemma CreationsAddOne(db: Db, op: Op, now: int)
    requires (op.CreateLog? || op.StartTimer?) && Execute(db, op, now).Committed?
    ensures
      var logs := Execute(db, op, now).db.logs;
      |logs| == |db.logs| + 1 && logs[..|db.logs|] == db.logs && StartsFresh(logs[|db.logs|], |db.logs|, now)
  {
    hide Sum;
  }

  /** What each kind of request does to the list of logs. */
  lemma OneLogEffect(w: World, r: Request)
    requires Sound(w) && OnOneLog(r.op) && Commits(w, r)
    ensures
      && HasLog(w.db, r.op.tenantId, r.op.logId) && w.db.logs[r.op.logId].id == r.op.logId
      && var c := Changed(r.op, w.db.logs[r.op.logId], w.clock + r.wait);
      c.Some? && Next(w, r).db.logs == w.db.logs[r.op.logId := c.value]
  {
    hide Execute, Changed, TimerSound, LinkSound, OneSheetPerWeek;
    OneLogOutcome(w, r.op, w.clock + r.wait);
    assert LogSound(w, r.op.logId);
  }

  lemma DecisionOnLogs(w: World, r: Request)
    requires (r.op.ApproveSheet? || r.op.RejectSheet?) && Commits(w, r)
    ensures Next(w, r).db.logs
         == CascadedRows(w.db.logs, r.op.tenantId, r.op.sheetId, if r.op.ApproveSheet? then Approved else Rejected)
  {
    hide Execute, CascadedRows;
    DecisionEffect(w.db, r.op, w.clock + r.wait);
  }

  lemma SubmissionOnLogs(w: World, r: Request)
    requires r.op.SubmitSheet? && Commits(w, r)
    ensures Next(w, r).db.logs == LinkedRows(w.db.logs, r.op.picked, SheetOf(w.db, r.op))
  {
    hide Sum, FindWeek, LinkedRows;
  }

  lemma CreationOnLogs(w: World, r: Request)
    requires (r.op.CreateLog? || r.op.StartTimer?) && Commits(w, r)
    ensures
      var logs := Next(w, r).db.logs;
      |logs| == |w.db.logs| + 1 && logs[..|w.db.logs|] == w.db.logs && StartsFresh(logs[|w.db.logs|], |w.db.logs|, w.clock + r.wait)
  {
    hide Execute, StartsFresh;
    CreationsAddOne(w.db, r.op, w.clock + r.wait);
  }

  /** A request adds at most one log, and a new log starts fresh. */
  lemma NewLogs(w: World, r: Request)
    requires Sound(w)
    ensures |w.db.logs| <= |Next(w, r).db.logs| <= |w.db.logs| + 1
    ensures |Next(w, r).db.logs| == |w.db.logs| + 1 ==> StartsFresh(Next(w, r).db.logs[|w.db.logs|], |w.db.logs|, w.clock + r.wait)
  {
    assert !Commits(w, r) ==> Next(w, r).db == w.db;
    hide Next, Commits, StartsFresh, Sound, Changed, SheetOf;
    if Commits(w, r) {
      if OnOneLog(r.op) {
        OneLogEffect(w, r);
      } else if r.op.ApproveSheet? || r.op.RejectSheet? {
        DecisionOnLogs(w, r);
      } else if r.op.SubmitSheet? {
        SubmissionOnLogs(w, r);
      } else {
        CreationOnLogs(w, r);
      }
    }
  }

  // ------------------------------------------------------ sheet decisions

  /** Approving a sheet commits exactly when it is submitted and every linked log is pending or rejected. */
  lemma ApproveCommitsIff(w: World, tenantId: string, sheetId: nat, approver: string)
    requires Sound(w)
    ensures ApproveSheetNow(w.db, tenantId, sheetId, approver).Committed? <==>
      && HasSheet(w.db, tenantId, sheetId) && w.db.sheets[sheetId].status == Submitted
      && forall i :: 0 <= i < |w.db.logs| && LinkedTo(w.db.logs[i], tenantId, sheetId) ==>
           w.db.logs[i].approvalStatus in {PendingManager, Rejected}
  {
    forall i: nat | i < |w.db.logs| ensures CanApprove()(w.db.logs[i]) <==> w.db.logs[i].approvalStatus in {PendingManager, Rejected} {
      assert LogSound(w, i);
    }
  }

  lemma RejectCommitsIff(w: World, tenantId: string, sheetId: nat, approver: string, reason: string)
    requires Sound(w)
    ensures RejectSheetNow(w.db, tenantId, sheetId, approver, reason).Committed? <==>
      && HasSheet(w.db, tenantId, sheetId) && w.db.sheets[sheetId].status == Submitted
      && forall i :: 0 <= i < |w.db.logs| && LinkedTo(w.db.logs[i], tenantId, sheetId) ==>
           w.db.logs[i].approvalStatus == PendingManager
  {
    forall i: nat | i < |w.db.logs| ensures CanReject()(w.db.logs[i]) <==> w.db.logs[i].approvalStatus == PendingManager {
      assert LogSound(w, i);
    }
  }

  function IsLinked(tenantId: string, sheetId: nat): Log -> bool {
    (l: Log) => LinkedTo(l, tenantId, sheetId)
  }

  lemma {:induction false} OneEventPerLinkedLog(logs: seq<Log>, tenantId: string, sheetId: nat, event: Log -> Event)
    ensures |EventsFor(logs, tenantId, sheetId, event)| == Count(logs, IsLinked(tenantId, sheetId))
  {
    if logs == [] {
    } else {
      OneEventPerLinkedLog(logs[..|logs| - 1], tenantId, sheetId, event);
    }
  }

  /** A decision that commits found every linked log open to it, and attempts one event and one more for each of them. */
  lemma DecisionEvents(db: Db, op: Op, now: int)
    requires (op.ApproveSheet? || op.RejectSheet?) && Execute(db, op, now).Committed?
    ensures |Execute(db, op, now).events| == 1 + Count(db.logs, IsLinked(op.tenantId, op.sheetId))
    ensures forall i :: 0 <= i < |db.logs| && LinkedTo(db.logs[i], op.tenantId, op.sheetId) ==> db.logs[i].approvalStatus != Approved
  {
    OneEventPerLinkedLog(db.logs, op.tenantId, op.sheetId, ApprovedEvent());
    OneEventPerLinkedLog(db.logs, op.tenantId, op.sheetId, RejectedEvent());
    hide EventsFor, Count, Readable, CascadedRows;
  }

  /** All or nothing: a decision changes every linked log, its sheet, nothing else, and attempts 1 + n events; a refusal changes and attempts nothing. */
  lemma DecisionsAreAllOrNothing(w: World, r: Request)
    requires Sound(w) && (r.op.ApproveSheet? || r.op.RejectSheet?)
    ensures
      var w' := Next(w, r);
      var t, s := r.op.tenantId, r.op.sheetId;
      if Execute(w.db, r.op, w'.clock).Refused? then w'.db == w.db && w'.attempts == w.attempts
      else
        && |w'.db.logs| == |w.db.logs| && |w'.db.sheets| == |w.db.sheets|
        && (forall i :: 0 <= i < |w.db.logs| && LinkedTo(w.db.logs[i], t, s) ==>
              w'.db.logs[i].approvalStatus == (if r.op.ApproveSheet? then Approved else Rejected)
              && w.db.logs[i].approvalStatus != Approved)
        && (forall i :: 0 <= i < |w.db.logs| && !LinkedTo(w.db.logs[i], t, s) ==> w'.db.logs[i] == w.db.logs[i])
        && (forall k :: 0 <= k < |w.db.sheets| && k != s ==> w'.db.sheets[k] == w.db.sheets[k])
        && |w'.attempts| == |w.attempts| + 1 + Count(w.db.logs, IsLinked(t, s))
        && w.attempts <= w'.attempts
  {
    hide Execute, Sound, Count, LinkedTo;
    var now := w.clock + r.wait;
    if Execute(w.db, r.op, now).Committed? {
      DecisionEffect(w.db, r.op, now);
      DecisionEvents(w.db, r.op, now);
    }
  }

  /** A submitted sheet is stuck, neither approvable nor rejectable, exactly when one of its logs was approved on its own. */
  lemma StuckIffLogApproved(run: seq<Request>, sheetId: nat, approver: string, reason: string)
    requires IsRun(run) && sheetId < |After(run).db.sheets| && After(run).db.sheets[sheetId].status == Submitted
    ensures
      var db := After(run).db;
      var t := db.sheets[sheetId].tenantId;
      (ApproveSheetNow(db, t, sheetId, approver).Refused? && RejectSheetNow(db, t, sheetId, approver, reason).Refused?)
        <==> exists i :: 0 <= i < |db.logs| && LinkedTo(db.logs[i], t, sheetId) && db.logs[i].approvalStatus == Approved
  {
    var w := After(run);
    EveryRunIsSound(run);
    var t := w.db.sheets[sheetId].tenantId;
    ApproveCommitsIff(w, t, sheetId, approver);
    RejectCommitsIff(w, t, sheetId, approver, reason);
    forall i: nat | i < |w.db.logs| && LinkedTo(w.db.logs[i], t, sheetId) ensures w.db.logs[i].approvalStatus != Draft {
      assert LogSound(w, i);
    }
  }
}
