/**
 Readers and writers of the project list interleaving over one Redis and one
 database.  Every Redis command and every database query or commit is a step of
 its own.  `versions` keeps all past database states, and the entries and
 commits carry the step numbers at which they happened; the code keeps none of
 these, they only let the theorems speak of the past.
 */
module Caching {
  import opened Wrappers
  import opened Projects

  const TTL := 60.0

  datatype Entry = Entry(rows: seq<Project>, asked: Query, version: nat, queriedAt: real, queryStep: nat, setAt: real, setStep: nat)

  /** A reader between its missed GET and its SET. */
  datatype Reader =
    | Missed(asked: Query)
    | Queried(rows: seq<Project>, asked: Query, version: nat, queriedAt: real, queryStep: nat)

  /** A writer after its commit.  `todo`: keys the scan still owes; `batch`: keys returned and not yet deleted. */
  datatype Invalidation =
    | Pending
    | Scanning(begun: nat, todo: set<string>, batch: set<string>)
    | Done(begun: nat)
    | Failed

  datatype Commit = Commit(tenant: Uuid, change: Change, at: real, step: nat, invalidation: Invalidation)

  datatype State = State(
    now: real, step: nat, versions: seq<seq<Project>>, commits: seq<Commit>,
    store: map<string, Entry>, readers: map<nat, Reader>)

  datatype Step =
    | Tick(seconds: real)
    | Lapse(key: string)
    | Get(reader: nat, query: Query)
    | GetFails(reader: nat, query: Query)
    | Load(reader: nat)
    | Set(reader: nat)
    | SetFails(reader: nat)
    | Write(tenant: Uuid, change: Change)
    | Scan(writer: nat, batch: set<string>)
    | Delete(writer: nat)
    | Finish(writer: nat)
    | Fail(writer: nat)

  function Initial(db: seq<Project>): State {
    State(0.0, 0, [db], [], map[], map[])
  }

  function Current(s: State): seq<Project>
    requires s.versions != []
  {
    s.versions[|s.versions| - 1]
  }

  /** What GET finds: an entry is gone once its TTL has passed. */
  function Served(s: State, q: Query): Option<Entry> {
    if KeyOf(q) in s.store && s.now <= s.store[KeyOf(q)].setAt + TTL then Some(s.store[KeyOf(q)]) else None
  }

  function Matching(s: State, t: Uuid): set<string> {
    set k | k in s.store && Glob(PatternOf(t), k)
  }

  // ------------------------------------------------------------------- steps

  predicate CanLoad(s: State, r: nat) {
    r in s.readers && s.readers[r].Missed? && s.versions != []
  }

  predicate CanSet(s: State, r: nat) {
    r in s.readers && s.readers[r].Queried?
  }

  predicate CanScan(s: State, w: nat, batch: set<string>) {
    && w < |s.commits|
    && batch <= Matching(s, s.commits[w].tenant)
    && (s.commits[w].invalidation.Pending? || (s.commits[w].invalidation.Scanning? && s.commits[w].invalidation.batch == {}))
  }

  predicate CanDelete(s: State, w: nat) {
    w < |s.commits| && s.commits[w].invalidation.Scanning? && s.commits[w].invalidation.batch != {}
  }

  /** SCAN ends only when every key that was there throughout has been returned. */
  predicate CanFinish(s: State, w: nat) {
    && w < |s.commits|
    && s.commits[w].invalidation.Scanning?
    && s.commits[w].invalidation.batch == {} && s.commits[w].invalidation.todo == {}
  }

  predicate CanFail(s: State, w: nat) {
    w < |s.commits| && (s.commits[w].invalidation.Pending? || s.commits[w].invalidation.Scanning?)
  }

  predicate Enabled(s: State, step: Step) {
    match step
    case Tick(seconds) => seconds >= 0.0
    case Lapse(k) => k in s.store && s.store[k].setAt + TTL < s.now
    case Get(r, q) => r !in s.readers
    case GetFails(r, q) => r !in s.readers
    case Load(r) => CanLoad(s, r)
    case Set(r) => CanSet(s, r)
    case SetFails(r) => CanSet(s, r)
    case Write(t, c) => s.versions != [] && Commits(Current(s), t, c)
    case Scan(w, batch) => CanScan(s, w, batch)
    case Delete(w) => CanDelete(s, w)
    case Finish(w) => CanFinish(s, w)
    case Fail(w) => CanFail(s, w)
  }

  function LoadRows(s: State, r: nat): State
    requires CanLoad(s, r)
  {
    var q := s.readers[r].asked;
    s.(readers := s.readers[r := Queried(Ask(Current(s), q), q, |s.versions| - 1, s.now, s.step)])
  }

  function StoreRows(s: State, r: nat): State
    requires CanSet(s, r)
  {
    var l := s.readers[r];
    s.(store := s.store[KeyOf(l.asked) := Entry(l.rows, l.asked, l.version, l.queriedAt, l.queryStep, s.now, s.step)],
       readers := s.readers - {r})
  }

  function CommitRows(s: State, t: Uuid, c: Change): State
    requires s.versions != [] && Commits(Current(s), t, c)
  {
    s.(versions := s.versions + [Changed(Current(s), t, c)],
       commits := s.commits + [Commit(t, c, s.now, s.step, Pending)])
  }

  function WithInvalidation(s: State, w: nat, i: Invalidation): State
    requires w < |s.commits|
  {
    s.(commits := s.commits[w := s.commits[w].(invalidation := i)])
  }

  /** The first SCAN starts the iteration: it owes all keys that match now. */
  function ScanBatch(s: State, w: nat, batch: set<string>): State
    requires CanScan(s, w, batch)
  {
    var i := s.commits[w].invalidation;
    WithInvalidation(s, w,
      if i.Pending? then Scanning(s.step, Matching(s, s.commits[w].tenant), batch) else i.(batch := batch))
  }

  /** A key that was deleted or has expired is owed by no scan any more, even if it is stored again. */
  function Without(c: Commit, keys: set<string>): Commit {
    if c.invalidation.Scanning? then c.(invalidation := c.invalidation.(todo := c.invalidation.todo - keys)) else c
  }

  function Dropped(s: State, keys: set<string>): State {
    s.(store := s.store - keys, commits := seq(|s.commits|, i requires 0 <= i < |s.commits| => Without(s.commits[i], keys)))
  }

  function DeleteBatch(s: State, w: nat): State
    requires CanDelete(s, w)
  {
    var after := Dropped(s, s.commits[w].invalidation.batch);
    WithInvalidation(after, w, after.commits[w].invalidation.(batch := {}))
  }

  function Effect(s: State, step: Step): State
    requires Enabled(s, step)
  {
    match step
    case Tick(seconds) => s.(now := s.now + seconds)
    case Lapse(k) => Dropped(s, {k})
    case Get(r, q) => if Served(s, q).Some? then s else s.(readers := s.readers[r := Missed(q)])
    case GetFails(r, q) => s.(readers := s.readers[r := Missed(q)])
    case Load(r) => LoadRows(s, r)
    case Set(r) => StoreRows(s, r)
    case SetFails(r) => s.(readers := s.readers - {r})
    case Write(t, c) => CommitRows(s, t, c)
    case Scan(w, batch) => ScanBatch(s, w, batch)
    case Delete(w) => DeleteBatch(s, w)
    case Finish(w) => WithInvalidation(s, w, Done(s.commits[w].invalidation.begun))
    case Fail(w) => WithInvalidation(s, w, Failed)
  }

  /** A step that is not enabled does not happen. */
  function Next(s: State, step: Step): State {
    if Enabled(s, step) then Effect(s, step).(step := s.step + 1) else s
  }

  function After(db: seq<Project>, run: seq<Step>): State {
    if run == [] then Initial(db) else Next(After(db, run[..|run| - 1]), run[|run| - 1])
  }

  // -------------------------------------------------------------- invariants

  /** Database states follow one another by the commits, one each. */
  predicate History(s: State) {
    && |s.versions| == |s.commits| + 1
    && forall i :: 0 <= i < |s.commits| ==> CommitOk(s, i)
  }

  predicate CommitOk(s: State, i: nat)
    requires i < |s.commits| && |s.versions| == |s.commits| + 1
  {
    var c := s.commits[i];
    && c.at <= s.now && c.step < s.step
    && Commits(s.versions[i], c.tenant, c.change)
    && s.versions[i + 1] == Changed(s.versions[i], c.tenant, c.change)
  }

  /** Version `v` was the database at that instant: its commit came before, the next one after. */
  predicate WasCurrent(s: State, v: nat, at: real, step: nat) {
    && v < |s.versions| && |s.versions| == |s.commits| + 1
    && at <= s.now && step < s.step
    && (v > 0 ==> s.commits[v - 1].at <= at && s.commits[v - 1].step < step)
    && (v < |s.commits| ==> at <= s.commits[v].at && step < s.commits[v].step)
  }

  /** A later commit came later still. */
  predicate InOrder(s: State) {
    forall i, j :: 0 <= i < j < |s.commits| ==> s.commits[i].at <= s.commits[j].at && s.commits[i].step < s.commits[j].step
  }

  predicate EntryOk(s: State, k: string)
    requires k in s.store
  {
    var e := s.store[k];
    && k == KeyOf(e.asked)
    && WasCurrent(s, e.version, e.queriedAt, e.queryStep)
    && e.rows == Ask(s.versions[e.version], e.asked)
    && e.queriedAt <= e.setAt <= s.now && e.queryStep < e.setStep < s.step
  }

  predicate ReaderOk(s: State, r: nat)
    requires r in s.readers
  {
    var l := s.readers[r];
    l.Queried? ==> WasCurrent(s, l.version, l.queriedAt, l.queryStep) && l.rows == Ask(s.versions[l.version], l.asked)
  }

  /** A scan returns only its tenant's keys; entries older than it are owed while it runs and gone once it is done. */
  predicate ScanOk(s: State, w: nat)
    requires w < |s.commits|
  {
    var i, t := s.commits[w].invalidation, s.commits[w].tenant;
    && (i.Scanning? ==> forall k :: k in i.batch ==> Glob(PatternOf(t), k))
    && (i.Scanning? ==> i.begun < s.step && forall k :: k in s.store && Glob(PatternOf(t), k) && s.store[k].setStep <= i.begun ==> k in i.todo)
    && (i.Done? ==> i.begun < s.step && forall k :: k in s.store && Glob(PatternOf(t), k) ==> s.store[k].setStep > i.begun)
  }

  predicate Sound(s: State) {
    && History(s) && InOrder(s)
    && (forall k :: k in s.store ==> EntryOk(s, k))
    && (forall r :: r in s.readers ==> ReaderOk(s, r))
    && (forall w :: 0 <= w < |s.commits| ==> ScanOk(s, w))
  }
}
