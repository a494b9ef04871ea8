/** Recorded timer seconds and hours against the time a timer really ran. */
module TimerAccounting {
  import opened Wrappers
  import opened Numbers
  import opened Workflow
  import opened WorkflowInvariants

  predicate IsRunning(w: World, logId: nat) {
    logId < |w.db.logs| && w.db.logs[logId].timerStatus == Running
  }

  /** The request starts a new log's timer, or resumes the log's, and is not refused. */
  predicate SwitchesOn(w: World, r: Request, logId: nat) {
    && Commits(w, r)
    && ((r.op.StartTimer? && logId == |w.db.logs|) || (r.op.ResumeTimer? && r.op.logId == logId))
  }

  /** The request pauses or stops the log's timer, and is not refused. */
  predicate SwitchesOff(w: World, r: Request, logId: nat) {
    Commits(w, r) && (r.op.PauseTimer? || r.op.StopTimer?) && r.op.logId == logId
  }

  /** An observer's stopwatch follows the requests, not the rows: from a start or resume to the next pause or stop. */
  predicate Going(run: seq<Request>, logId: nat) {
    run != [] &&
    var init, r := run[..|run| - 1], run[|run| - 1];
    SwitchesOn(After(init), r, logId) || (Going(init, logId) && !SwitchesOff(After(init), r, logId))
  }

  /** What the stopwatch shows: microseconds since it was switched on. */
  function Open(run: seq<Request>, logId: nat): nat {
    if run == [] then 0
    else
      var init := run[..|run| - 1];
      if Going(init, logId) && Going(run, logId) then Open(init, logId) + run[|run| - 1].wait else 0
  }

  /** Microseconds the timer ran in the segments that are over. */
  function Closed(run: seq<Request>, logId: nat): nat {
    if run == [] then 0
    else
      var init := run[..|run| - 1];
      Closed(init, logId) + if EndsSegment(run, logId) then Open(init, logId) + run[|run| - 1].wait else 0
  }

  predicate EndsSegment(run: seq<Request>, logId: nat)
    requires run != []
  {
    Going(run[..|run| - 1], logId) && !Going(run, logId)
  }

  /** Segments of running time closed so far, by a pause or a stop. */
  function Segments(run: seq<Request>, logId: nat): nat {
    if run == [] then 0 else Segments(run[..|run| - 1], logId) + if EndsSegment(run, logId) then 1 else 0
  }

  /** Some committed edit of the run set the log's hours by hand. */
  predicate HoursEdited(run: seq<Request>, logId: nat) {
    run != [] &&
    var init := run[..|run| - 1];
    var r := run[|run| - 1];
    || HoursEdited(init, logId)
    || (r.op.UpdateLog? && r.op.logId == logId && r.op.edit.hours.Some?
        && Commits(After(init), r))
  }

  /** A running timer's recorded start is when the stopwatch was switched on. */
  predicate StartsWithStopwatch(l: Log, now: int, open: nat) {
    l.timerStatus == Running ==> l.timerStartedAt == Some(now - open)
  }

  ghost predicate Accounted(run: seq<Request>, logId: nat) {
    var w := After(run);
    var closed := Closed(run, logId);
    if logId < |w.db.logs| then
      var l := w.db.logs[logId];
      var acc := l.accumulatedSeconds;
      && StartsWithStopwatch(l, w.clock, Open(run, logId))
      && acc * SECOND <= closed <= acc * SECOND + Segments(run, logId) * (SECOND - 1)
      && (Segments(run, logId) == 0 ==> acc == 0)
      && (l.timerStatus != Idle && !HoursEdited(run, logId) ==> l.hours == HoursOf(acc))
    else
      closed == 0 && Segments(run, logId) == 0
  }

  lemma WholeSecondsBounds(us: nat)
    ensures 0 <= us - WholeSeconds(us) * SECOND <= SECOND - 1
  {
  }

  lemma ZeroHours()
    ensures HoursOf(0) == 0.0
  {
    assert CentsOf(0) == 0.0;
    CentsAreFixed(0.0);
  }

  /** The timer's state at `now` follows from its state before: a running timer accumulates when it is closed. */
  predicate TimerMoves(l: Log, l': Log, now: int) {
    && (l'.timerStatus == Idle <==> l.timerStatus == Idle)
    && l.accumulatedSeconds <= l'.accumulatedSeconds
    && if l.timerStatus == Running then
         l.timerStartedAt.Some? &&
         if l'.timerStatus == Running
         then l'.timerStartedAt == l.timerStartedAt && l'.accumulatedSeconds == l.accumulatedSeconds
         else l'.accumulatedSeconds == l.accumulatedSeconds + WholeSeconds(now - l.timerStartedAt.value)
       else l'.accumulatedSeconds == l.accumulatedSeconds && (l'.timerStatus == Running ==> l'.timerStartedAt == Some(now))
  }

  /** The hours stay, follow the seconds, or were set by hand. */
  predicate HoursFollow(l: Log, l': Log, edited: bool) {
    || (l'.hours == l.hours && l'.accumulatedSeconds == l.accumulatedSeconds)
    || l'.hours == HoursOf(l'.accumulatedSeconds)
    || (edited && l'.accumulatedSeconds == l.accumulatedSeconds)
  }

  predicate SetsHours(w: World, r: Request, i: nat) {
    r.op.UpdateLog? && r.op.logId == i && r.op.edit.hours.Some? && Commits(w, r)
  }

  lemma SameTimerMoves(l: Log, l': Log, before: int, now: int)
    requires TimerSound(l, before)
    requires l'.timerStatus == l.timerStatus && l'.timerStartedAt == l.timerStartedAt && l'.accumulatedSeconds == l.accumulatedSeconds
    ensures TimerMoves(l, l', now) && (l'.hours == l.hours ==> HoursFollow(l, l', false))
  {
    hide HoursOf, WholeSeconds, Readable;
  }

  lemma TimerOpMoves(op: Op, l: Log, before: int, now: int)
    requires TimerSound(l, before) && before <= now && Changed(op, l, now).Some?
    requires op.PauseTimer? || op.ResumeTimer? || op.StopTimer?
    ensures TimerMoves(l, Changed(op, l, now).value, now) && HoursFollow(l, Changed(op, l, now).value, false)
  {
    hide HoursOf, Readable;
  }

  lemma EditMoves(op: Op, l: Log, before: int, now: int)
    requires TimerSound(l, before) && op.UpdateLog? && Changed(op, l, now).Some?
    ensures TimerMoves(l, Changed(op, l, now).value, now) && HoursFollow(l, Changed(op, l, now).value, op.edit.hours.Some?)
  {
    hide HoursOf, WholeSeconds, Readable;
  }

  /** Approvals, rejections, links and cascades leave the timer alone. */
  lemma OthersKeepTimer(l: Log, op: Op, sheetId: nat, now: int)
    requires !op.PauseTimer? && !op.ResumeTimer? && !op.StopTimer? && !op.UpdateLog?
    ensures
      var l' := LogAfter(l, op, sheetId, now);
      && l'.timerStatus == l.timerStatus && l'.timerStartedAt == l.timerStartedAt
      && l'.accumulatedSeconds == l.accumulatedSeconds && l'.hours == l.hours
  {
    hide TimerPausedAt, TimerResumedAt, TimerStoppedAt, Edited;
  }

  lemma LogMoves(l: Log, op: Op, sheetId: nat, before: int, now: int)
    requires TimerSound(l, before) && before <= now
    ensures
      var l' := LogAfter(l, op, sheetId, now);
      TimerMoves(l, l', now) && HoursFollow(l, l', op.UpdateLog? && op.logId == l.id && op.edit.hours.Some?)
  {
    hide TimerMoves, HoursFollow, TimerSound, Changed;
    SameTimerMoves(l, l, before, now);
    if op.PauseTimer? || op.ResumeTimer? || op.StopTimer? || op.UpdateLog? {
      if l.id == op.logId && Changed(op, l, now).Some? {
        if op.UpdateLog? {
          EditMoves(op, l, before, now);
        } else {
          TimerOpMoves(op, l, before, now);
        }
      }
    } else {
      OthersKeepTimer(l, op, sheetId, now);
      SameTimerMoves(l, LogAfter(l, op, sheetId, now), before, now);
    }
    Unedited(l, LogAfter(l, op, sheetId, now), op.UpdateLog? && op.logId == l.id && op.edit.hours.Some?);
  }

  lemma Unedited(l: Log, l': Log, edited: bool)
    ensures HoursFollow(l, l', false) ==> HoursFollow(l, l', edited)
  {
  }

  /** One request moves an existing log's timer forward by the time that passed, if it was running. */
  lemma TimerStep(w: World, r: Request, i: nat)
    requires Sound(w) && i < |w.db.logs|
    ensures i < |Next(w, r).db.logs|
    ensures
      var l, l' := w.db.logs[i], Next(w, r).db.logs[i];
      TimerSound(l, w.clock) && TimerMoves(l, l', w.clock + r.wait) && HoursFollow(l, l', SetsHours(w, r, i))
  {
    hide Execute, TimerSound, TimerMoves, HoursFollow, LogAfter, SheetOf;
    LogAfterRequest(w, r, i);
    assert LogSound(w, i);
    hide Sound;
    var l, now := w.db.logs[i], w.clock + r.wait;
    if Commits(w, r) {
      LogMoves(l, r.op, if r.op.SubmitSheet? then SheetOf(w.db, r.op) else 0, w.clock, now);
    } else {
      SameTimerMoves(l, l, w.clock, now);
      Unedited(l, l, SetsHours(w, r, i));
    }
  }

  /** A log's timer runs after the request if the request switched it on, or it ran before and was not switched off. */
  lemma SwitchedLog(l: Log, op: Op, sheetId: nat, before: int, now: int)
    requires TimerSound(l, before) && before <= now
    ensures
      var on := op.ResumeTimer? && op.logId == l.id && l.timerStatus == Paused;
      var off := (op.PauseTimer? || op.StopTimer?) && op.logId == l.id && l.timerStatus == Running;
      LogAfter(l, op, sheetId, now).timerStatus == Running <==> on || (l.timerStatus == Running && !off)
  {
    hide HoursOf, WholeSeconds, Readable;
  }

  /** A timer operation on a log commits exactly from the states that allow it. */
  lemma TimerOpCommits(w: World, r: Request)
    requires Sound(w) && (r.op.PauseTimer? || r.op.ResumeTimer? || r.op.StopTimer?) && HasLog(w.db, r.op.tenantId, r.op.logId)
    ensures
      var status := w.db.logs[r.op.logId].timerStatus;
      Commits(w, r) <==>
        if r.op.PauseTimer? then status == Running
        else if r.op.ResumeTimer? then status == Paused else status == Running || status == Paused
  {
    hide Execute, HoursOf, WholeSeconds, Readable;
    OneLogOutcome(w, r.op, w.clock + r.wait);
    assert LogSound(w, r.op.logId);
  }

  lemma CommittedHasLog(w: World, r: Request)
    requires Sound(w) && OnOneLog(r.op) && Commits(w, r)
    ensures HasLog(w.db, r.op.tenantId, r.op.logId)
  {
    hide Execute, Changed, Sound;
    OneLogOutcome(w, r.op, w.clock + r.wait);
  }

  lemma SwitchStep(w: World, r: Request, i: nat)
    requires Sound(w) && i < |w.db.logs|
    ensures IsRunning(Next(w, r), i) <==> SwitchesOn(w, r, i) || (IsRunning(w, i) && !SwitchesOff(w, r, i))
  {
    hide Execute, TimerSound, LogAfter, SheetOf;
    LogAfterRequest(w, r, i);
    assert LogSound(w, i);
    var l, now := w.db.logs[i], w.clock + r.wait;
    if Commits(w, r) {
      SwitchedLog(l, r.op, if r.op.SubmitSheet? then SheetOf(w.db, r.op) else 0, w.clock, now);
      if r.op.PauseTimer? || r.op.ResumeTimer? || r.op.StopTimer? {
        CommittedHasLog(w, r);
        TimerOpCommits(w, r);
      }
    }
    hide Sound;
  }

  lemma NewSwitch(w: World, r: Request, i: nat)
    requires Sound(w) && |w.db.logs| <= i
    ensures IsRunning(Next(w, r), i) <==> SwitchesOn(w, r, i)
    ensures !SwitchesOff(w, r, i)
  {
    NewLogs(w, r);
    if Commits(w, r) {
      if OnOneLog(r.op) {
        OneLogEffect(w, r);
      } else if r.op.ApproveSheet? || r.op.RejectSheet? {
        DecisionOnLogs(w, r);
      } else if r.op.SubmitSheet? {
        SubmissionOnLogs(w, r);
      } else {
        CreationRuns(w, r);
      }
    }
    hide Execute, Changed, Sound, SheetOf;
  }

  lemma CreationRuns(w: World, r: Request)
    requires (r.op.CreateLog? || r.op.StartTimer?) && Commits(w, r)
    ensures |Next(w, r).db.logs| == |w.db.logs| + 1
    ensures Next(w, r).db.logs[|w.db.logs|].timerStatus == Running <==> r.op.StartTimer?
  {
  }

  /** The observer's stopwatch goes exactly while the stored timer runs. */
  lemma {:induction false} GoingIsRunning(run: seq<Request>, logId: nat)
    requires IsRun(run)
    ensures Going(run, logId) <==> IsRunning(After(run), logId)
  {
    hide Next, Sound, SwitchesOn, SwitchesOff, Possible;
    if run == [] {
    } else {
      var init, r := run[..|run| - 1], run[|run| - 1];
      GoingIsRunning(init, logId);
      EveryRunIsSound(init);
      if logId < |After(init).db.logs| {
        SwitchStep(After(init), r, logId);
      } else {
        NewSwitch(After(init), r, logId);
      }
    }
  }

  lemma TimerStepAccounts(run: seq<Request>, logId: nat)
    requires IsRun(run) && run != [] && Accounted(run[..|run| - 1], logId) && Sound(After(run[..|run| - 1]))
    requires logId < |After(run[..|run| - 1]).db.logs|
    ensures Accounted(run, logId)
  {
    hide Execute, Next, Going, Sound, HoursOf, WholeSeconds, Readable;
    var init, r := run[..|run| - 1], run[|run| - 1];
    var w := After(init);
    TimerStep(w, r, logId);
    GoingIsRunning(init, logId);
    GoingIsRunning(run, logId);
    ClockMoves(w, r);
    var l := w.db.logs[logId];
    if l.timerStatus == Running {
      WholeSecondsBounds(w.clock + r.wait - l.timerStartedAt.value);
    }
  }

  lemma ClockMoves(w: World, r: Request)
    ensures Next(w, r).clock == w.clock + r.wait
  {
    hide Execute;
  }

  lemma NewTimer(w: World, r: Request, i: nat)
    requires Sound(w) && |w.db.logs| <= i < |Next(w, r).db.logs|
    ensures
      var l := Next(w, r).db.logs[i];
      && l.accumulatedSeconds == 0
      && (l.timerStatus == Running ==> l.timerStartedAt == Some(Next(w, r).clock))
      && (l.timerStatus != Idle ==> l.hours == HoursOf(0))
  {
    hide Execute, Sound, HoursOf;
    NewLogs(w, r);
    ZeroHours();
  }

  lemma NewTimerAccounts(run: seq<Request>, logId: nat)
    requires IsRun(run) && run != [] && Accounted(run[..|run| - 1], logId) && Sound(After(run[..|run| - 1]))
    requires logId >= |After(run[..|run| - 1]).db.logs|
    ensures Accounted(run, logId)
  {
    hide Next, Sound, HoursEdited, HoursOf, Going;
    var w, r := After(run[..|run| - 1]), run[|run| - 1];
    assert After(run) == Next(w, r);
    GoingIsRunning(run[..|run| - 1], logId);
    if logId < |Next(w, r).db.logs| {
      NewTimer(w, r, logId);
    }
    hide After;
    assert !Going(run[..|run| - 1], logId);
  }

  lemma {:induction false} EveryRunAccounts(run: seq<Request>, logId: nat)
    requires IsRun(run)
    ensures Accounted(run, logId)
  {
    if run == [] {
    } else {
      var init := run[..|run| - 1];
      hide Execute, Next;
      EveryRunAccounts(init, logId);
      EveryRunIsSound(init);
      hide Accounted, Sound;
      if logId < |After(init).db.logs| {
        TimerStepAccounts(run, logId);
      } else {
        NewTimerAccounts(run, logId);
      }
    }
  }

  lemma HoursWithin18Seconds(acc: int)
    ensures -18.0 <= HoursOf(acc) * 3600.0 - acc as real <= 18.0
    ensures NearestCent(HoursOf(acc), acc as real / 3600.0)
  {
    Round2IsNearestCent(acc as real / 3600.0);
  }

  /**
   Against a stopwatch that follows the requests: closed running time minus one
   second per segment < recorded seconds <= closed running time, the open segment
   counts from when it was switched on, and the hours are the seconds' nearest hundredth.
   */
  lemma TimerIsAccurate(run: seq<Request>, logId: nat)
    requires IsRun(run) && logId < |After(run).db.logs|
    ensures
      var w := After(run);
      var l := w.db.logs[logId];
      var k, closed := Segments(run, logId), Closed(run, logId);
      && (l.timerStatus == Running <==> Going(run, logId))
      && (l.timerStatus == Running ==> l.timerStartedAt == Some(w.clock - Open(run, logId)))
      && l.accumulatedSeconds * 1_000_000 <= closed
      && (k > 0 ==> closed - k * 1_000_000 < l.accumulatedSeconds * 1_000_000)
      && (k == 0 ==> closed == l.accumulatedSeconds == 0)
      && (l.timerStatus != Idle && !HoursEdited(run, logId) ==>
            && -18.0 <= l.hours * 3600.0 - l.accumulatedSeconds as real <= 18.0
            && NearestCent(l.hours, l.accumulatedSeconds as real / 3600.0))
  {
    hide Execute, Next, HoursOf, HoursEdited, Segments, Closed, Open, Going, NearestCent;
    EveryRunAccounts(run, logId);
    GoingIsRunning(run, logId);
    EveryRunIsSound(run);
    assert LogSound(After(run), logId);
    HoursWithin18Seconds(After(run).db.logs[logId].accumulatedSeconds);
  }

  lemma HoursOfGrows(a: int, b: int)
    requires a <= b
    ensures HoursOf(a) <= HoursOf(b)
  {
    Round2Monotone(a as real / 3600.0, b as real / 3600.0);
  }

  /** Without manual edits, the recorded hours of a timer never go down. */
  lemma HoursNeverDecrease(run: seq<Request>, logId: nat)
    requires IsRun(run) && run != [] && !HoursEdited(run, logId)
    requires logId < |After(run[..|run| - 1]).db.logs| && After(run[..|run| - 1]).db.logs[logId].timerStatus != Idle
    ensures logId < |After(run).db.logs|
    ensures After(run[..|run| - 1]).db.logs[logId].hours <= After(run).db.logs[logId].hours
  {
    hide Execute, Next, Sound, HoursOf, WholeSeconds, Segments, Closed, Open, Going, TimerSound;
    var init, r := run[..|run| - 1], run[|run| - 1];
    EveryRunIsSound(init);
    EveryRunAccounts(init, logId);
    TimerStep(After(init), r, logId);
    var a, b := After(init).db.logs[logId].accumulatedSeconds, After(run).db.logs[logId].accumulatedSeconds;
    HoursOfGrows(a, b);
  }
}
