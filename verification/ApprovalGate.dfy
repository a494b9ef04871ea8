/** The approval gate: how often a log is announced as approved, counted over whole runs. */
module ApprovalGate {
  import opened Tables
  import opened Workflow
  import opened WorkflowInvariants

  function Announces(logId: nat): Event -> bool {
    (e: Event) => e.TimeLogApproved? && e.logId == logId
  }

  function One(b: bool): nat {
    if b then 1 else 0
  }

  predicate IsApproved(w: World, logId: nat) {
    logId < |w.db.logs| && w.db.logs[logId].approvalStatus == Approved
  }

  /** Steps of the run that take the log into APPROVED. */
  function Approvals(run: seq<Request>, logId: nat): nat {
    if run == [] then 0
    else
      var init := run[..|run| - 1];
      Approvals(init, logId) + One(!IsApproved(After(init), logId) && IsApproved(After(run), logId))
  }

  /** Steps of the run that take the log out of APPROVED again. */
  function Resets(run: seq<Request>, logId: nat): nat {
    if run == [] then 0
    else
      var init := run[..|run| - 1];
      Resets(init, logId) + One(IsApproved(After(init), logId) && !IsApproved(After(run), logId))
  }

  lemma {:induction false} AnnouncedOncePerCascade(logs: seq<Log>, tenantId: string, sheetId: nat, logId: nat)
    requires forall i :: 0 <= i < |logs| ==> logs[i].id == i
    ensures Count(EventsFor(logs, tenantId, sheetId, ApprovedEvent()), Announces(logId))
         == One(logId < |logs| && LinkedTo(logs[logId], tenantId, sheetId))
  {
    if logs == [] {
    } else {
      var n := |logs| - 1;
      AnnouncedOncePerCascade(logs[..n], tenantId, sheetId, logId);
      assert logId < n ==> logs[..n][logId] == logs[logId];
      var before := EventsFor(logs[..n], tenantId, sheetId, ApprovedEvent());
      if LinkedTo(logs[n], tenantId, sheetId) {
        assert EventsFor(logs, tenantId, sheetId, ApprovedEvent()) == before + [Announcement(logs[n])];
        CountAppend(before, Announcement(logs[n]), Announces(logId));
      } else {
        assert EventsFor(logs, tenantId, sheetId, ApprovedEvent()) == before;
      }
    }
  }

  lemma {:induction false} RejectionsAnnounceNothing(logs: seq<Log>, tenantId: string, sheetId: nat, logId: nat)
    ensures Count(EventsFor(logs, tenantId, sheetId, RejectedEvent()), Announces(logId)) == 0
  {
    if logs == [] {
    } else {
      var n := |logs| - 1;
      RejectionsAnnounceNothing(logs[..n], tenantId, sheetId, logId);
      var before := EventsFor(logs[..n], tenantId, sheetId, RejectedEvent());
      if LinkedTo(logs[n], tenantId, sheetId) {
        CountAppend(before, TimeLogRejected(logs[n].id), Announces(logId));
      } else {
        assert EventsFor(logs, tenantId, sheetId, RejectedEvent()) == before;
      }
    }
  }

  lemma CountOne<T>(x: T, p: T -> bool)
    ensures Count([x], p) == One(p(x))
  {
    CountAppend([], x, p);
    assert [] + [x] == [x];
  }

  lemma CascadeAnnounces(w: World, r: Request, logId: nat)
    requires Sound(w) && Commits(w, r) && (r.op.ApproveSheet? || r.op.RejectSheet?)
    ensures Count(Execute(w.db, r.op, w.clock + r.wait).events, Announces(logId))
         == One(r.op.ApproveSheet? && logId < |w.db.logs| && LinkedTo(w.db.logs[logId], r.op.tenantId, r.op.sheetId))
  {
    var t, s := r.op.tenantId, r.op.sheetId;
    forall i: nat | i < |w.db.logs| ensures w.db.logs[i].id == i {
      assert LogSound(w, i);
    }
    AnnouncedOncePerCascade(w.db.logs, t, s, logId);
    RejectionsAnnounceNothing(w.db.logs, t, s, logId);
    CountOne(TimesheetApproved(s), Announces(logId));
    CountOne(TimesheetRejected(s), Announces(logId));
    CountConcat([TimesheetApproved(s)], EventsFor(w.db.logs, t, s, ApprovedEvent()), Announces(logId));
    CountConcat([TimesheetRejected(s)], EventsFor(w.db.logs, t, s, RejectedEvent()), Announces(logId));
  }

  /** Apart from sheet decisions a committed request publishes at most one event, an approval only if it approves a log. */
  lemma AtMostOneEvent(db: Db, op: Op, now: int)
    requires Execute(db, op, now).Committed? && !op.ApproveSheet? && !op.RejectSheet?
    requires OnOneLog(op) ==> HasLog(db, op.tenantId, op.logId) && db.logs[op.logId].id == op.logId
    ensures
      var events := Execute(db, op, now).events;
      |events| <= 1 && (op.ApproveLog? ==> |events| == 1)
      && (|events| == 1 ==> (events[0].TimeLogApproved? <==> op.ApproveLog?) && (op.ApproveLog? ==> events[0].logId == op.logId))
    ensures op.ApproveLog? ==> Approvable(db.logs[op.logId])
  {
    hide Sum, Readable, HoursOf, WholeSeconds, FindWeek, SubmittedSheets, LinkedRows;
  }

  lemma SingleAnnouncement(w: World, r: Request, logId: nat)
    requires Sound(w) && Commits(w, r) && !r.op.ApproveSheet? && !r.op.RejectSheet?
    ensures Count(Execute(w.db, r.op, w.clock + r.wait).events, Announces(logId))
         == One(r.op.ApproveLog? && r.op.logId == logId)
    ensures r.op.ApproveLog? ==> r.op.logId < |w.db.logs| && Approvable(w.db.logs[r.op.logId])
  {
    hide Execute, Sound, Changed, TimerSound;
    if OnOneLog(r.op) {
      OneLogOutcome(w, r.op, w.clock + r.wait);
      LogKnown(w, r.op.logId);
    }
    AtMostOneEvent(w.db, r.op, w.clock + r.wait);
    var events := Execute(w.db, r.op, w.clock + r.wait).events;
    if |events| == 1 {
      CountOne(events[0], Announces(logId));
      assert events == [events[0]];
    }
  }

  /** A committed request takes a log into APPROVED exactly when it approves that log, alone or in its sheet's cascade. */
  lemma IntoApproved(w: World, r: Request, logId: nat)
    requires Sound(w) && Commits(w, r)
    ensures (!IsApproved(w, logId) && IsApproved(Next(w, r), logId)) <==>
      || (r.op.ApproveLog? && r.op.logId == logId)
      || (r.op.ApproveSheet? && logId < |w.db.logs| && LinkedTo(w.db.logs[logId], r.op.tenantId, r.op.sheetId))
  {
    hide Execute, Sound;
    if r.op.ApproveSheet? || r.op.RejectSheet? {
      DecisionsAreAllOrNothing(w, r);
    } else {
      SingleAnnouncement(w, r, logId);
      NewLogs(w, r);
      if logId < |w.db.logs| {
        LogAfterRequest(w, r, logId);
      }
    }
  }

  /** One committed use case announces a log once if it takes it into APPROVED, and not at all otherwise. */
  lemma ExecuteAnnounces(w: World, r: Request, logId: nat)
    requires Sound(w) && Commits(w, r)
    ensures Count(Execute(w.db, r.op, w.clock + r.wait).events, Announces(logId))
         == One(!IsApproved(w, logId) && IsApproved(Next(w, r), logId))
  {
    hide Execute, Next;
    IntoApproved(w, r, logId);
    if r.op.ApproveSheet? || r.op.RejectSheet? {
      CascadeAnnounces(w, r, logId);
    } else {
      SingleAnnouncement(w, r, logId);
    }
  }

  /** Every announcement is an approval and the other way round; approvals exceed resets by one exactly while the log is approved. */
  lemma {:induction false} GateCounts(run: seq<Request>, logId: nat)
    requires IsRun(run)
    ensures Count(After(run).attempts, Announces(logId)) == Approvals(run, logId)
    ensures Approvals(run, logId) == Resets(run, logId) + One(IsApproved(After(run), logId))
  {
    hide Execute;
    if run == [] {
    } else {
      var init, r := run[..|run| - 1], run[|run| - 1];
      GateCounts(init, logId);
      EveryRunIsSound(init);
      var w := After(init);
      if Commits(w, r) {
        ExecuteAnnounces(w, r, logId);
        CountConcat(w.attempts, Execute(w.db, r.op, w.clock + r.wait).events, Announces(logId));
      }
    }
  }

  /** Only a submission that picks the log, or stopping its unfinished timer, takes it out of APPROVED. */
  lemma ResetsComeFromSubmitOrStop(w: World, r: Request, logId: nat)
    requires Sound(w) && IsApproved(w, logId) && !IsApproved(Next(w, r), logId)
    ensures
      || (r.op.SubmitSheet? && logId in r.op.picked)
      || (r.op.StopTimer? && r.op.logId == logId && w.db.logs[logId].timerStatus in {Running, Paused})
    ensures logId < |Next(w, r).db.logs| && Next(w, r).db.logs[logId].approvalStatus == PendingManager
  {
    LogAfterRequest(w, r, logId);
    if r.op.ApproveSheet? || r.op.RejectSheet? {
      DecisionsAreAllOrNothing(w, r);
    }
    hide Execute;
  }
}
