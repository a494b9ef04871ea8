/** One database transaction over the log and timesheet tables, and the repositories inside it. */
module UnitOfWork {
  import opened Wrappers
  import opened Tables
  import opened Workflow
  import opened Rows
  import opened Entities

  ghost predicate IdsMatch(db: Db) {
    && (forall i :: 0 <= i < |db.logs| ==> db.logs[i].id == i)
    && (forall s :: 0 <= s < |db.sheets| ==> db.sheets[s].id == s)
  }

  /** The linked logs in row order. */
  function LinkedLogs(logs: seq<Log>, tenantId: string, sheetId: nat): seq<Log> {
    if logs == [] then []
    else
      var n := |logs| - 1;
      LinkedLogs(logs[..n], tenantId, sheetId) + if LinkedTo(logs[n], tenantId, sheetId) then [logs[n]] else []
  }

  function EventsOf(logs: seq<Log>, event: Log -> Event): seq<Event> {
    seq(|logs|, k requires 0 <= k < |logs| => event(logs[k]))
  }

  lemma {:induction false} EventsForLinked(logs: seq<Log>, tenantId: string, sheetId: nat, event: Log -> Event)
    ensures EventsFor(logs, tenantId, sheetId, event) == EventsOf(LinkedLogs(logs, tenantId, sheetId), event)
  {
    if logs == [] {
    } else {
      EventsForLinked(logs[..|logs| - 1], tenantId, sheetId, event);
    }
  }

  /** `found` are exactly the linked rows, in row order. */
  ghost predicate IsListing(found: seq<Log>, logs: seq<Log>, tenantId: string, sheetId: nat) {
    && (forall k :: 0 <= k < |found| ==> IsLinkedRow(found[k], logs, tenantId, sheetId))
    && (forall j, k :: 0 <= j < k < |found| ==> found[j].id < found[k].id)
    && (forall i :: 0 <= i < |logs| && LinkedTo(logs[i], tenantId, sheetId) ==> logs[i] in found)
  }

  ghost predicate IsLinkedRow(l: Log, logs: seq<Log>, tenantId: string, sheetId: nat) {
    l.id < |logs| && logs[l.id] == l && LinkedTo(l, tenantId, sheetId)
  }

  lemma ListingGrows(found: seq<Log>, logs: seq<Log>, l: Log, tenantId: string, sheetId: nat)
    requires IsListing(found, logs, tenantId, sheetId) && l.id == |logs|
    ensures IsListing(found + if LinkedTo(l, tenantId, sheetId) then [l] else [], logs + [l], tenantId, sheetId)
  {
    var found' := found + if LinkedTo(l, tenantId, sheetId) then [l] else [];
    forall k | 0 <= k < |found'| ensures IsLinkedRow(found'[k], logs + [l], tenantId, sheetId) {
      if k < |found| {
        assert IsLinkedRow(found[k], logs, tenantId, sheetId);
      }
    }
    forall j, k | 0 <= j < k < |found'| ensures found'[j].id < found'[k].id {
      assert IsLinkedRow(found[j], logs, tenantId, sheetId);
    }
  }

  lemma {:induction false} LinkedLogsAreListed(logs: seq<Log>, tenantId: string, sheetId: nat)
    requires forall i :: 0 <= i < |logs| ==> logs[i].id == i
    ensures IsListing(LinkedLogs(logs, tenantId, sheetId), logs, tenantId, sheetId)
  {
    if logs == [] {
    } else {
      var n := |logs| - 1;
      LinkedLogsAreListed(logs[..n], tenantId, sheetId);
      ListingGrows(LinkedLogs(logs[..n], tenantId, sheetId), logs[..n], logs[n], tenantId, sheetId);
      assert logs[..n] + [logs[n]] == logs;
    }
  }

  function IdsOf(logs: seq<Log>): (ids: seq<nat>)
    ensures |ids| == |logs|
  {
    seq(|logs|, k requires 0 <= k < |logs| => logs[k].id)
  }

  predicate AllReadable(logs: seq<Log>) {
    forall k :: 0 <= k < |logs| ==> Readable(logs[k])
  }

  lemma AllReadableAppend(logs: seq<Log>, l: Log)
    ensures AllReadable(logs + [l]) <==> AllReadable(logs) && Readable(l)
  {
    assert (logs + [l])[|logs|] == l;
    assert forall k :: 0 <= k < |logs| ==> (logs + [l])[k] == logs[k];
  }

  predicate MatchTwice(sheets: seq<Sheet>, tenantId: string, userId: string, weekStart: int) {
    exists i, j :: 0 <= i < j < |sheets| && IsWeekOf(sheets[i], tenantId, userId, weekStart)
                   && IsWeekOf(sheets[j], tenantId, userId, weekStart)
  }

  lemma NoneMatches(sheets: seq<Sheet>, tenantId: string, userId: string, weekStart: int)
    requires sheets == []
    ensures FindWeek(sheets, tenantId, userId, weekStart).None? && !MatchTwice(sheets, tenantId, userId, weekStart)
  {
  }

  lemma OneMoreSheet(sheets: seq<Sheet>, n: nat, tenantId: string, userId: string, weekStart: int)
    requires n < |sheets|
    ensures
      var before, matches := FindWeek(sheets[..n], tenantId, userId, weekStart), IsWeekOf(sheets[n], tenantId, userId, weekStart);
      && FindWeek(sheets[..n + 1], tenantId, userId, weekStart) == (if matches then Some(n) else before)
      && (MatchTwice(sheets[..n + 1], tenantId, userId, weekStart) <==>
            MatchTwice(sheets[..n], tenantId, userId, weekStart) || (matches && before.Some?))
  {
    assert sheets[..n + 1][..n] == sheets[..n];
  }

  class Transaction {
    var stored: Stored
    var session: Stored
    /** What the stored rows and the session's rows stand for. */
    ghost var db: Db
    ghost var view: Db

    ghost predicate Valid()
      reads this
    {
      && stored == Store(db) && session == Store(view)
      && IdsMatch(db) && IdsMatch(view)
    }

    constructor ()
      ensures Valid() && db == Db([], [])
    {
      stored, session := Stored([], []), Stored([], []);
      db, view := Db([], []), Db([], []);
    }

    method Enter()
      requires Valid()
      modifies this`session, this`view
      ensures Valid() && view == db
    {
      session, view := stored, db;
    }

    method Commit()
      requires Valid()
      modifies this`stored, this`db
      ensures Valid() && db == view
    {
      stored, db := session, view;
    }

    method Rollback()
      requires Valid()
      modifies this`session, this`view
      ensures Valid() && view == db
    {
      session, view := stored, db;
    }

    /** Null when there is no such row for the tenant, or when reading it back raises. */
    method GetLog(tenantId: string, logId: nat) returns (l: TimeLog?, error: Error)
      requires Valid()
      ensures l == null <==> !HasLog(view, tenantId, logId) || !Readable(view.logs[logId])
      ensures error == if HasLog(view, tenantId, logId) then RuleViolation else NotFound
      ensures l != null ==> fresh(l) && l.Value() == view.logs[logId]
    {
      if logId >= |session.logs| || session.logs[logId].tenantId != tenantId {
        return null, NotFound;
      }
      LogRoundTripIff(view.logs[logId]);
      var read := FromLogRow(session.logs[logId]);
      error := RuleViolation;
      if read.Failure? {
        return null, error;
      }
      l := new TimeLog(read.value);
    }

    /** False when the row just written cannot be read back. */
    method UpdateLog(l: TimeLog) returns (ok: bool)
      requires Valid() && l.id < |view.logs|
      modifies this`session, this`view
      ensures Valid() && ok == Readable(l.Value())
      ensures view == old(view).(logs := old(view).logs[l.id := l.Value()])
    {
      session := session.(logs := session.logs[l.id := ToLogRow(l.Value())]);
      view := view.(logs := view.logs[l.id := l.Value()]);
      assert LogRows(view.logs) == session.logs;
      LogRoundTripIff(l.Value());
      ok := FromLogRow(session.logs[l.id]).Success?;
    }

    method AddLog(l: Log) returns (ok: bool)
      requires Valid() && l.id == |view.logs|
      modifies this`session, this`view
      ensures Valid() && ok == Readable(l)
      ensures view == old(view).(logs := old(view).logs + [l])
    {
      session := session.(logs := session.logs + [ToLogRow(l)]);
      view := view.(logs := view.logs + [l]);
      assert LogRows(view.logs) == session.logs;
      LogRoundTripIff(l);
      ok := FromLogRow(ToLogRow(l)).Success?;
    }

    method SumHours(tenantId: string, userId: string, day: int) returns (total: real)
      requires Valid()
      ensures total == Sum(view.logs, DayHours(tenantId, userId, day))
    {
      total := 0.0;
      for i := 0 to |session.logs|
        invariant total == Sum(view.logs[..i], DayHours(tenantId, userId, day))
      {
        assert view.logs[..i + 1] == view.logs[..i] + [view.logs[i]];
        SumAppend(view.logs[..i], view.logs[i], DayHours(tenantId, userId, day));
        var r := session.logs[i];
        if r.tenantId == tenantId && r.userId == userId && r.logDate == day {
          total := total + r.hours;
        }
      }
      assert view.logs[..|view.logs|] == view.logs;
    }

    method GetSheet(tenantId: string, sheetId: nat) returns (s: Timesheet?)
      requires Valid()
      ensures s == null <==> !HasSheet(view, tenantId, sheetId)
      ensures s != null ==> fresh(s) && s.Value() == view.sheets[sheetId]
    {
      if sheetId >= |session.sheets| || session.sheets[sheetId].tenantId != tenantId {
        return null;
      }
      SheetRoundTrip(view.sheets[sheetId]);
      s := new Timesheet(FromSheetRow(session.sheets[sheetId]).value);
    }

    method UpdateSheet(s: Timesheet)
      requires Valid() && s.id < |view.sheets|
      modifies this`session, this`view
      ensures Valid() && view == old(view).(sheets := old(view).sheets[s.id := s.Value()])
    {
      session := session.(sheets := session.sheets[s.id := ToSheetRow(s.Value())]);
      view := view.(sheets := view.sheets[s.id := s.Value()]);
      assert SheetRows(view.sheets) == session.sheets;
    }

    method AddSheet(s: Sheet)
      requires Valid() && s.id == |view.sheets|
      modifies this`session, this`view
      ensures Valid() && view == old(view).(sheets := old(view).sheets + [s])
    {
      session := session.(sheets := session.sheets + [ToSheetRow(s)]);
      view := view.(sheets := view.sheets + [s]);
      assert SheetRows(view.sheets) == session.sheets;
    }

    /** `scalar_one_or_none`: `many` when more than one sheet matches. */
    method GetByUserAndWeek(tenantId: string, userId: string, weekStart: int) returns (found: Option<nat>, many: bool)
      requires Valid()
      ensures found == FindWeek(view.sheets, tenantId, userId, weekStart)
      ensures many <==> MatchTwice(view.sheets, tenantId, userId, weekStart)
    {
      hide FindWeek, MatchTwice;
      found, many := None, false;
      NoneMatches(view.sheets[..0], tenantId, userId, weekStart);
      for i := 0 to |session.sheets|
        invariant found == FindWeek(view.sheets[..i], tenantId, userId, weekStart)
        invariant many <==> MatchTwice(view.sheets[..i], tenantId, userId, weekStart)
      {
        OneMoreSheet(view.sheets, i, tenantId, userId, weekStart);
        var r := session.sheets[i];
        if r.tenantId == tenantId && r.userId == userId && r.weekStart == weekStart {
          many := many || found.Some?;
          found := Some(i);
        }
      }
      assert view.sheets[..|view.sheets|] == view.sheets;
    }

    /** Read one row of the session back as an object; null when reading it raises. */
    method ReadLog(i: nat) returns (l: TimeLog?)
      requires Valid() && i < |view.logs|
      ensures l != null <==> Readable(view.logs[i])
      ensures l != null ==> fresh(l) && l.Value() == view.logs[i]
    {
      LogRoundTripIff(view.logs[i]);
      var read := FromLogRow(session.logs[i]);
      if read.Failure? {
        return null;
      }
      l := new TimeLog(read.value);
    }

    /** Ids of the linked logs in row order; `ok == false` when one of the rows cannot be read. */
    method ListByTimesheet(tenantId: string, sheetId: nat) returns (ids: seq<nat>, ok: bool)
      requires Valid()
      ensures ids == IdsOf(LinkedLogs(view.logs, tenantId, sheetId))
      ensures ok <==> AllReadable(LinkedLogs(view.logs, tenantId, sheetId))
    {
      ids, ok := [], true;
      for i := 0 to |session.logs|
        invariant ids == IdsOf(LinkedLogs(view.logs[..i], tenantId, sheetId))
        invariant ok <==> AllReadable(LinkedLogs(view.logs[..i], tenantId, sheetId))
      {
        assert view.logs[..i + 1][..i] == view.logs[..i];
        var r := session.logs[i];
        ghost var before := LinkedLogs(view.logs[..i], tenantId, sheetId);
        if r.tenantId == tenantId && r.timesheetId == Some(sheetId) {
          assert LinkedLogs(view.logs[..i + 1], tenantId, sheetId) == before + [view.logs[i]];
          AllReadableAppend(before, view.logs[i]);
          LogRoundTripIff(view.logs[i]);
          ids := ids + [r.id];
          ok := ok && FromLogRow(r).Success?;
        } else {
          assert LinkedLogs(view.logs[..i + 1], tenantId, sheetId) == before;
        }
      }
      assert view.logs[..|view.logs|] == view.logs;
    }
  }
}
