/** What every interleaving of cache readers and writers keeps. */
module CachingInvariants {
  import opened Projects
  import opened Caching

  /** The past of `s` is the past of `t`, and what is new in `t` came after it. */
  predicate Grew(s: State, t: State) {
    && s.now <= t.now && s.step < t.step
    && |s.versions| <= |t.versions| && t.versions[..|s.versions|] == s.versions
    && |s.commits| <= |t.commits|
    && (forall i :: 0 <= i < |s.commits| ==> SameCommit(s.commits[i], t.commits[i]))
    && (forall i :: |s.commits| <= i < |t.commits| ==> t.commits[i].at >= s.now && t.commits[i].step >= s.step)
  }

  predicate SameCommit(c: Commit, d: Commit) {
    c.tenant == d.tenant && c.change == d.change && c.at == d.at && c.step == d.step
  }

  lemma NextGrows(s: State, step: Step)
    requires Enabled(s, step)
    ensures Grew(s, Next(s, step))
  {
    hide Commits, Changed, Ask, KeyOf, Glob;
  }

  lemma StaysCurrent(s: State, t: State, v: nat, at: real, step: nat)
    requires WasCurrent(s, v, at, step) && Grew(s, t) && |t.versions| == |t.commits| + 1
    ensures WasCurrent(t, v, at, step) && t.versions[v] == s.versions[v]
  {
    assert t.versions[..|s.versions|][v] == s.versions[v];
  }

  lemma HistoryKept(s: State, step: Step)
    requires Enabled(s, step) && History(s)
    ensures History(Next(s, step))
  {
    var t := Next(s, step);
    NextGrows(s, step);
    forall i | 0 <= i < |t.commits| ensures |t.versions| == |t.commits| + 1 && CommitOk(t, i) {
      hide Commits, Changed, Ask, KeyOf, Glob;
      if i < |s.commits| {
        assert CommitOk(s, i);
        assert t.versions[..|s.versions|][i] == s.versions[i] && t.versions[..|s.versions|][i + 1] == s.versions[i + 1];
      }
    }
  }

  lemma OrderKept(s: State, step: Step)
    requires Enabled(s, step) && History(s) && InOrder(s)
    ensures InOrder(Next(s, step))
  {
    hide Commits, Changed, Ask, KeyOf, Glob;
    var t := Next(s, step);
    NextGrows(s, step);
    forall i, j | 0 <= i < j < |t.commits| ensures t.commits[i].at <= t.commits[j].at && t.commits[i].step < t.commits[j].step {
      assert CommitOk(s, i);
    }
  }

  lemma Latest(s: State, at: real, step: nat)
    requires History(s) && at == s.now
    ensures WasCurrent(s.(step := s.step + 1), |s.versions| - 1, at, s.step)
  {
    if |s.commits| > 0 {
      assert CommitOk(s, |s.commits| - 1);
    }
  }

  lemma LoadedReaderOk(s: State, r: nat)
    requires CanLoad(s, r) && History(s) && History(Next(s, Load(r))) && Grew(s, Next(s, Load(r)))
    ensures ReaderOk(Next(s, Load(r)), r)
  {
    hide Commits, Changed, Ask, KeyOf, Glob, Grew;
    Latest(s, s.now, s.step);
  }

  lemma ReaderStaysOk(s: State, t: State, r: nat)
    requires r in s.readers && ReaderOk(s, r) && r in t.readers && t.readers[r] == s.readers[r]
    requires Grew(s, t) && |t.versions| == |t.commits| + 1
    ensures ReaderOk(t, r)
  {
    hide Ask;
    if s.readers[r].Queried? {
      StaysCurrent(s, t, s.readers[r].version, s.readers[r].queriedAt, s.readers[r].queryStep);
    }
  }

  /** A reader stays as it is, has missed, or has just queried. */
  lemma ReaderMoves(s: State, step: Step, r: nat)
    requires Enabled(s, step) && r in Next(s, step).readers
    ensures
      || (r in s.readers && Next(s, step).readers[r] == s.readers[r])
      || Next(s, step).readers[r].Missed? || step == Load(r)
  {
    hide Commits, Changed, Ask, KeyOf, Glob;
  }

  lemma ReadersKept(s: State, step: Step)
    requires Enabled(s, step) && Sound(s)
    ensures
      var t := Next(s, step);
      forall r :: r in t.readers ==> ReaderOk(t, r)
  {
    var t := Next(s, step);
    NextGrows(s, step);
    HistoryKept(s, step);
    hide Next, Grew, CommitOk, WasCurrent, Ask;
    forall r | r in t.readers ensures ReaderOk(t, r) {
      ReaderMoves(s, step, r);
      if step == Load(r) {
        LoadedReaderOk(s, r);
      } else if r in s.readers && t.readers[r] == s.readers[r] {
        ReaderStaysOk(s, t, r);
      }
    }
  }

  /** Entries stay as they are, go, or are set by this very step. */
  predicate StoreFrom(s: State, t: State) {
    forall k :: k in t.store ==> (k in s.store && t.store[k] == s.store[k]) || t.store[k].setStep == s.step
  }

  lemma StoreMoves(s: State, step: Step)
    requires Enabled(s, step)
    ensures StoreFrom(s, Next(s, step))
    ensures !step.Set? ==> Next(s, step).store.Keys <= s.store.Keys && forall k :: k in Next(s, step).store ==> Next(s, step).store[k] == s.store[k]
  {
    hide Commits, Changed, Ask, KeyOf, Glob;
  }

  lemma SetEntryOk(s: State, r: nat)
    requires CanSet(s, r) && Sound(s) && History(Next(s, Set(r))) && Grew(s, Next(s, Set(r)))
    ensures EntryOk(Next(s, Set(r)), KeyOf(s.readers[r].asked))
  {
    hide Commits, Changed, Ask, KeyOf, Glob, Grew;
    var t, l := Next(s, Set(r)), s.readers[r];
    assert ReaderOk(s, r);
    StaysCurrent(s, t, l.version, l.queriedAt, l.queryStep);
  }

  lemma EntryStaysOk(s: State, t: State, k: string)
    requires k in s.store && EntryOk(s, k) && k in t.store && t.store[k] == s.store[k] && Grew(s, t) && |t.versions| == |t.commits| + 1
    ensures EntryOk(t, k)
  {
    hide Ask, KeyOf;
    StaysCurrent(s, t, s.store[k].version, s.store[k].queriedAt, s.store[k].queryStep);
  }

  lemma EntriesKept(s: State, step: Step)
    requires Enabled(s, step) && Sound(s)
    ensures
      var t := Next(s, step);
      forall k :: k in t.store ==> EntryOk(t, k)
  {
    var t := Next(s, step);
    NextGrows(s, step);
    HistoryKept(s, step);
    StoreMoves(s, step);
    if step.Set? {
      SetEntryOk(s, step.reader);
    }
    forall k | k in t.store ensures EntryOk(t, k) {
      if step.Set? && k == KeyOf(s.readers[step.reader].asked) {
      } else {
        hide Commits, Changed, Ask, Glob, Grew, EntryOk, History;
        assert k in s.store && t.store[k] == s.store[k];
        EntryStaysOk(s, t, k);
      }
    }
  }

  /** An untouched scan: what the step sets is newer than the scan. */
  lemma OtherScan(s: State, t: State, w: nat)
    requires w < |s.commits| <= |t.commits| && ScanOk(s, w) && StoreFrom(s, t) && s.step < t.step
    requires t.commits[w] == s.commits[w]
    ensures ScanOk(t, w)
  {
    hide Glob;
  }

  lemma StartedScan(s: State, w: nat, batch: set<string>)
    requires CanScan(s, w, batch) && ScanOk(s, w)
    ensures ScanOk(Next(s, Scan(w, batch)), w)
  {
    hide Glob;
  }

  lemma FinishedScan(s: State, w: nat)
    requires CanFinish(s, w) && ScanOk(s, w)
    ensures ScanOk(Next(s, Finish(w)), w)
  {
    hide Glob;
  }

  lemma DeletedFromScan(s: State, v: nat, w: nat)
    requires CanDelete(s, v) && w < |s.commits| && ScanOk(s, w)
    ensures ScanOk(Next(s, Delete(v)), w)
  {
    hide Glob;
    var t := Next(s, Delete(v));
    assert t.commits[w].tenant == s.commits[w].tenant;
    assert t.store == s.store - s.commits[v].invalidation.batch;
  }

  lemma LapsedFromScan(s: State, k: string, w: nat)
    requires Enabled(s, Lapse(k)) && w < |s.commits| && ScanOk(s, w)
    ensures ScanOk(Next(s, Lapse(k)), w)
  {
    hide Glob;
    var t := Next(s, Lapse(k));
    assert t.commits[w].tenant == s.commits[w].tenant;
    assert t.store == s.store - {k};
  }

  /** Only a writer's own scan, a deletion or an expiry touches its invalidation. */
  lemma InvalidationKept(s: State, step: Step, w: nat)
    requires Enabled(s, step) && w < |s.commits| && !step.Delete? && !step.Lapse?
    requires step.Scan? || step.Finish? || step.Fail? ==> step.writer != w
    ensures w < |Next(s, step).commits| && Next(s, step).commits[w] == s.commits[w]
  {
    hide Commits, Changed, Ask, KeyOf, Glob;
  }

  lemma ScanKept(s: State, step: Step, w: nat)
    requires Enabled(s, step) && w < |s.commits| && ScanOk(s, w)
    ensures w < |Next(s, step).commits| && ScanOk(Next(s, step), w)
  {
    StoreMoves(s, step);
    NextGrows(s, step);
    hide Next, ScanOk, StoreFrom, Commits, Changed, Ask, KeyOf, Glob;
    if step.Delete? {
      DeletedFromScan(s, step.writer, w);
    } else if step.Lapse? {
      LapsedFromScan(s, step.key, w);
    } else if step == Finish(w) {
      FinishedScan(s, w);
    } else if step == Fail(w) {
      FailedScan(s, w);
    } else if step.Scan? && step.writer == w {
      StartedScan(s, w, step.batch);
    } else {
      InvalidationKept(s, step, w);
      OtherScan(s, Next(s, step), w);
    }
  }

  lemma NewScan(s: State, step: Step, w: nat)
    requires Enabled(s, step) && |s.commits| <= w < |Next(s, step).commits|
    ensures ScanOk(Next(s, step), w)
  {
    hide Commits, Changed, Ask, KeyOf, Glob;
  }

  lemma ScansKept(s: State, step: Step)
    requires Enabled(s, step) && Sound(s)
    ensures
      var t := Next(s, step);
      forall w :: 0 <= w < |t.commits| ==> ScanOk(t, w)
  {
    hide Next, ScanOk, Enabled;
    forall w | 0 <= w < |Next(s, step).commits| ensures ScanOk(Next(s, step), w) {
      if w < |s.commits| {
        ScanKept(s, step, w);
      } else {
        NewScan(s, step, w);
      }
    }
  }

  lemma FailedScan(s: State, w: nat)
    requires CanFail(s, w)
    ensures ScanOk(Next(s, Fail(w)), w)
  {
  }

  lemma NextKeepsSound(s: State, step: Step)
    requires Sound(s)
    ensures Sound(Next(s, step))
  {
    if Enabled(s, step) {
      HistoryKept(s, step);
      OrderKept(s, step);
      EntriesKept(s, step);
      ReadersKept(s, step);
      ScansKept(s, step);
    }
  }

  lemma {:induction false} EveryRunIsSound(db: seq<Project>, run: seq<Step>)
    ensures Sound(After(db, run))
  {
    if run == [] {
    } else {
      EveryRunIsSound(db, run[..|run| - 1]);
      NextKeepsSound(After(db, run[..|run| - 1]), run[|run| - 1]);
    }
  }
}
