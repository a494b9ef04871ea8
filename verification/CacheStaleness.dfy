/** What a list served from the cache is worth, in every interleaving. */
module CacheStaleness {
  import opened Projects
  import opened Caching
  import opened CachingInvariants

  /**
   A served list is the uncached answer at the instant its filler queried.  That
   instant lies at most the TTL and the filler's own delay back.
   */
  lemma ServedWasTrue(db: seq<Project>, run: seq<Step>, q: Query)
    requires Served(After(db, run), q).Some?
    ensures
      var s := After(db, run);
      var e := Served(s, q).value;
      && WasCurrent(s, e.version, e.queriedAt, e.queryStep)
      && e.rows == Ask(s.versions[e.version], q)
      && s.now - e.queriedAt <= 60.0 + (e.setAt - e.queriedAt)
  {
    EveryRunIsSound(db, run);
    var s := After(db, run);
    assert EntryOk(s, KeyOf(q));
    KeyIsInjective(q, s.store[KeyOf(q)].asked);
  }

  /** A served list never shows another tenant's projects. */
  lemma ServedIsOwn(db: seq<Project>, run: seq<Step>, q: Query)
    requires Served(After(db, run), q).Some?
    ensures forall p :: p in Served(After(db, run), q).value.rows ==> p.tenant == q.tenant
  {
    ServedWasTrue(db, run, q);
    var s := After(db, run);
    AnswersAreOwn(s.versions[Served(s, q).value.version], q);
  }

  /** Commits of other tenants leave the answer alone. */
  lemma {:induction false} AnswerKept(s: State, q: Query, v: nat, n: nat)
    requires History(s) && v <= n < |s.versions|
    requires forall i :: v <= i < n ==> s.commits[i].tenant != q.tenant
    ensures Ask(s.versions[n], q) == Ask(s.versions[v], q)
    decreases n
  {
    hide Ask, Commits, Changed;
    if v == n {
    } else {
      AnswerKept(s, q, v, n - 1);
      assert CommitOk(s, n - 1);
      CommitKeepsOtherAnswers(s.versions[n - 1], s.commits[n - 1].tenant, s.commits[n - 1].change, q);
    }
  }

  /**
   Commit `i` explains a stale entry: the filler had queried before it, and it is
   not yet invalidated, its invalidation failed, or the filler stored the entry
   after that invalidation had begun.
   */
  predicate Explains(s: State, i: nat, e: Entry) {
    && i < |s.commits| && s.commits[i].tenant == e.asked.tenant && e.version <= i
    && e.queryStep < s.commits[i].step && e.queriedAt <= s.commits[i].at
    && match s.commits[i].invalidation {
         case Pending => true
         case Scanning(_, _, _) => true
         case Failed => true
         case Done(begun) => begun < e.setStep
       }
  }

  /** The entry of a query is that query's, and was so when its version was current. */
  lemma EntryIsAnswer(s: State, q: Query)
    requires Sound(s) && KeyOf(q) in s.store
    ensures s.store[KeyOf(q)].asked == q && EntryOk(s, KeyOf(q))
  {
    assert EntryOk(s, KeyOf(q));
    KeyIsInjective(q, s.store[KeyOf(q)].asked);
  }

  lemma OwnCommitExplains(s: State, q: Query, i: nat)
    requires Sound(s) && KeyOf(q) in s.store && s.store[KeyOf(q)].version <= i < |s.commits| && s.commits[i].tenant == q.tenant
    ensures Explains(s, i, s.store[KeyOf(q)])
  {
    hide Ask, Commits, Changed, Glob, KeyOf;
    EntryIsAnswer(s, q);
    var e := s.store[KeyOf(q)];
    assert ScanOk(s, i);
    PatternIsTenant(q.tenant, q);
    if e.version < i {
      assert s.commits[e.version].step < s.commits[i].step && s.commits[e.version].at <= s.commits[i].at;
    }
  }

  /**
   Every own commit since the filler's query explains the entry; so an entry
   that differs from the database always has an explanation.
   */
  lemma StaleIsExplained(db: seq<Project>, run: seq<Step>, q: Query)
    requires Served(After(db, run), q).Some?
    ensures
      var s := After(db, run);
      var e := Served(s, q).value;
      && s.versions != []
      && (e.rows != Ask(Current(s), q) ==> exists i :: Explains(s, i, e))
      && (forall i :: e.version <= i < |s.commits| && s.commits[i].tenant == q.tenant ==> Explains(s, i, e))
  {
    hide Ask, Commits, Changed, After, Explains, KeyOf, Glob;
    EveryRunIsSound(db, run);
    var s := After(db, run);
    EntryIsAnswer(s, q);
    var e := s.store[KeyOf(q)];
    forall i | e.version <= i < |s.commits| && s.commits[i].tenant == q.tenant ensures Explains(s, i, e) {
      OwnCommitExplains(s, q, i);
    }
    if e.rows != Ask(Current(s), q) {
      if forall i :: e.version <= i < |s.commits| ==> s.commits[i].tenant != q.tenant {
        AnswerKept(s, q, e.version, |s.versions| - 1);
        assert false;
      }
    }
  }

  /** No commit of the tenant is outstanding, failed or raced: the cached list is the uncached one. */
  lemma UnexplainedIsFresh(db: seq<Project>, run: seq<Step>, q: Query)
    requires Served(After(db, run), q).Some?
    requires forall i :: !Explains(After(db, run), i, Served(After(db, run), q).value)
    ensures After(db, run).versions != [] && Served(After(db, run), q).value.rows == Ask(Current(After(db, run)), q)
  {
    StaleIsExplained(db, run, q);
  }

  /** Invalidating one tenant's lists leaves every other tenant's cached lists in place. */
  lemma InvalidationSparesOthers(db: seq<Project>, run: seq<Step>, w: nat, q: Query)
    requires CanDelete(After(db, run), w) && After(db, run).commits[w].tenant != q.tenant
    ensures Served(Next(After(db, run), Delete(w)), q) == Served(After(db, run), q)
  {
    EveryRunIsSound(db, run);
    var s := After(db, run);
    assert ScanOk(s, w);
    PatternIsTenant(s.commits[w].tenant, q);
    assert KeyOf(q) !in s.commits[w].invalidation.batch;
    hide Glob, KeyOf;
  }

  // ---------------------------------------------------------------- the gaps

  /** The reader queries, the writer commits and invalidates an empty cache, the reader stores what it had read. */
  function Race(q: Query, c: Change): seq<Step> {
    [Get(0, q), Load(0), Write(q.tenant, c), Scan(0, {}), Finish(0), Set(0)]
  }

  lemma {:induction false} AfterConcat(db: seq<Project>, run: seq<Step>, more: seq<Step>)
    ensures After(db, run + more) == Continue(After(db, run), more)
    decreases |more|
  {
    if more == [] {
      assert run + more == run;
    } else {
      assert (run + [more[0]])[..|run|] == run;
      assert run + more == run + [more[0]] + more[1..];
      AfterConcat(db, run + [more[0]], more[1..]);
    }
  }

  function Continue(s: State, steps: seq<Step>): State
    decreases |steps|
  {
    if steps == [] then s else Continue(Next(s, steps[0]), steps[1..])
  }

  lemma FillerReads(db: seq<Project>, q: Query)
    ensures Next(Next(Initial(db), Get(0, q)), Load(0))
         == State(0.0, 2, [db], [], map[], map[0 := Queried(Ask(db, q), q, 0, 0.0, 1)])
  {
    hide Ask, KeyOf;
  }

  lemma WriterInvalidates(s: State, q: Query, c: Change)
    requires s.store == map[] && s.commits == [] && s.versions != [] && Commits(Current(s), q.tenant, c)
    ensures
      Next(Next(Next(s, Write(q.tenant, c)), Scan(0, {})), Finish(0))
        == s.(versions := s.versions + [Changed(Current(s), q.tenant, c)], step := s.step + 3,
              commits := [Commit(q.tenant, c, s.now, s.step, Done(s.step + 1))])
  {
    hide Ask, Commits, Changed, Glob, KeyOf;
    var s1 := Next(s, Write(q.tenant, c));
    assert Matching(s1, q.tenant) == {};
    var s2 := Next(s1, Scan(0, {}));
    assert s2.commits == [Commit(q.tenant, c, s.now, s.step, Scanning(s.step + 1, {}, {}))];
    var s3 := Next(s2, Finish(0));
    assert s3.commits == [Commit(q.tenant, c, s.now, s.step, Done(s.step + 1))];
  }

  /** Any change that alters an answer can be missed: nothing is pending or failed, and the old list is served. */
  lemma RaceServesStale(db: seq<Project>, q: Query, c: Change)
    requires Commits(db, q.tenant, c) && Ask(Changed(db, q.tenant, c), q) != Ask(db, q)
    ensures
      var s := After(db, Race(q, c));
      && s.versions == [db, Changed(db, q.tenant, c)]
      && (forall i :: 0 <= i < |s.commits| ==> s.commits[i].invalidation.Done?)
      && Served(s, q).Some? && Served(s, q).value.rows == Ask(db, q) != Ask(Current(s), q)
  {
    hide Ask, Commits, Changed, Glob, KeyOf, Next, Continue;
    RaceSteps(db, q, c);
    var read := State(0.0, 2, [db], [], map[], map[0 := Queried(Ask(db, q), q, 0, 0.0, 1)]);
    FillerReads(db, q);
    WriterInvalidates(read, q, c);
    FillerStores(Next(Next(Next(read, Write(q.tenant, c)), Scan(0, {})), Finish(0)), q);
  }

  lemma OneStep(s: State, steps: seq<Step>)
    requires steps != []
    ensures Continue(s, steps) == Continue(Next(s, steps[0]), steps[1..])
  {
    hide Next;
  }

  lemma RaceSteps(db: seq<Project>, q: Query, c: Change)
    ensures
      var read := Next(Next(Initial(db), Get(0, q)), Load(0));
      After(db, Race(q, c)) == Next(Next(Next(Next(read, Write(q.tenant, c)), Scan(0, {})), Finish(0)), Set(0))
  {
    hide Next;
    var race := Race(q, c);
    assert [] + race == race;
    AfterConcat(db, [], race);
    SixSteps(Initial(db), race);
  }

  lemma SixSteps(s: State, steps: seq<Step>)
    requires |steps| == 6
    ensures Continue(s, steps) == Next(Next(Next(Next(Next(Next(s, steps[0]), steps[1]), steps[2]), steps[3]), steps[4]), steps[5])
  {
    hide Next;
    var three := Next(Next(Next(s, steps[0]), steps[1]), steps[2]);
    ThreeSteps(s, steps);
    ThreeSteps(three, steps[3..]);
    assert steps[3..][3..] == [];
  }

  lemma ThreeSteps(s: State, steps: seq<Step>)
    requires |steps| >= 3
    ensures Continue(s, steps) == Continue(Next(Next(Next(s, steps[0]), steps[1]), steps[2]), steps[3..])
  {
    hide Next, Continue;
    OneStep(s, steps);
    OneStep(Next(s, steps[0]), steps[1..]);
    OneStep(Next(Next(s, steps[0]), steps[1]), steps[1..][1..]);
    assert steps[1..][1..][1..] == steps[3..];
  }

  lemma FillerStores(s: State, q: Query)
    requires CanSet(s, 0) && s.readers[0].asked == q
    ensures
      var t := Next(s, Set(0));
      && t.versions == s.versions && t.commits == s.commits
      && Served(t, q).Some? && Served(t, q).value.rows == s.readers[0].rows
  {
    hide KeyOf;
  }
}
