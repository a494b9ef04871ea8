/**
 Duplicate detection: entries grouped by user and day, then by description, in
 dictionaries that keep insertion order.  Entries are numbered by their place in
 the query's result.
 */
module Anomalies {
  import opened Grouping
  import opened Texts

  datatype Entry = Entry(userId: string, logDate: string, description: string)

  /** A duplicate_description anomaly: the row, and how often its description was found that day. */
  datatype Flag = Flag(row: nat, times: nat)

  /** f"{user_id}:{log_date}" */
  function DayOf(e: Entry): string {
    e.userId + ":" + e.logDate
  }

  function DayKey(rows: seq<Entry>): nat -> string {
    (i: nat) => if i < |rows| then DayOf(rows[i]) else ""
  }

  /** The description as compared; `norm` is strip and lower. */
  function TextKey(rows: seq<Entry>, norm: string -> string): nat -> string {
    (i: nat) => if i < |rows| then norm(rows[i].description) else ""
  }

  function HasText(rows: seq<Entry>, norm: string -> string): nat -> bool {
    (i: nat) => TextKey(rows, norm)(i) != ""
  }

  // ------------------------------------------------------------- dictionaries

  /** A dict of lists in insertion order. */
  datatype Dict = Dict(keys: seq<string>, lists: map<string, seq<nat>>)

  const EMPTY := Dict([], map[])

  /** d.setdefault(key, []).append(x) */
  function Append(d: Dict, key: string, x: nat): Dict {
    if key in d.lists then d.(lists := d.lists[key := d.lists[key] + [x]])
    else Dict(d.keys + [key], d.lists[key := [x]])
  }

  /** The dict groups `xs` by `key`. */
  ghost predicate GroupsBy(d: Dict, xs: seq<nat>, key: nat -> string) {
    && NoDuplicates(d.keys)
    && (forall k :: k in d.keys <==> k in d.lists)
    && (forall k :: k in d.lists ==> d.lists[k] == Group(xs, key, k) && d.lists[k] != [])
    && Covers(d.keys, xs, key)
  }

  lemma GroupGrows(xs: seq<nat>, key: nat -> string, x: nat, k: string)
    ensures Group(xs + [x], key, k) == Group(xs, key, k) + if k == key(x) then [x] else []
  {
    assert (xs + [x])[..|xs|] == xs;
  }

  lemma AppendGroups(d: Dict, xs: seq<nat>, key: nat -> string, x: nat)
    requires GroupsBy(d, xs, key)
    ensures GroupsBy(Append(d, key(x), x), xs + [x], key)
  {
    hide Group;
    if key(x) !in d.lists {
      EmptyGroup(d, xs, key, key(x));
    }
    var d' := Append(d, key(x), x);
    forall k | k in d'.lists ensures d'.lists[k] == Group(xs + [x], key, k) && d'.lists[k] != [] {
      GroupGrows(xs, key, x, k);
    }
  }

  lemma EmptyGroup(d: Dict, xs: seq<nat>, key: nat -> string, k: string)
    requires GroupsBy(d, xs, key) && k !in d.lists
    ensures Group(xs, key, k) == []
  {
    SelectKeeps(xs, InGroup(key, k));
    assert forall i :: 0 <= i < |xs| ==> key(xs[i]) in d.keys;
    HasElement(Group(xs, key, k));
  }

  lemma HasElement(xs: seq<nat>)
    ensures xs != [] ==> exists x :: x in xs
  {
    if xs != [] {
      assert xs[0] in xs;
    }
  }

  // ------------------------------------------------------------ specification

  function Upto(n: nat): seq<nat> {
    if n == 0 then [] else Upto(n - 1) + [n - 1]
  }

  predicate Increasing(xs: seq<nat>) {
    forall i, j :: 0 <= i < j < |xs| ==> xs[i] < xs[j]
  }

  lemma {:induction false} UptoIsAll(n: nat)
    ensures Increasing(Upto(n)) && forall i :: i in Upto(n) <==> 0 <= i < n
  {
    if n == 0 {
    } else {
      UptoIsAll(n - 1);
      var before := Upto(n - 1);
      assert forall i :: 0 <= i < |before| ==> before[i] in before;
    }
  }

  lemma {:induction false} SelectIncreases(xs: seq<nat>, p: nat -> bool)
    requires Increasing(xs)
    ensures Increasing(Select(xs, p))
  {
    if xs == [] {
    } else {
      var n := |xs| - 1;
      SelectIncreases(xs[..n], p);
      SelectKeeps(xs[..n], p);
      var before := Select(xs[..n], p);
      assert forall i :: 0 <= i < |before| ==> before[i] in before && before[i] in xs[..n];
    }
  }

  /** The rows of one user and day that carry a description. */
  function DescribedOn(rows: seq<Entry>, norm: string -> string, day: string): seq<nat> {
    Select(Group(Upto(|rows|), DayKey(rows), day), HasText(rows, norm))
  }

  /** The rows with the same day key and the same nonempty description as row `i`, itself among them. */
  function Twins(rows: seq<Entry>, norm: string -> string, i: nat): seq<nat>
    requires i < |rows|
  {
    Group(DescribedOn(rows, norm, DayOf(rows[i])), TextKey(rows, norm), norm(rows[i].description))
  }

  predicate AreTwins(rows: seq<Entry>, norm: string -> string, i: nat, j: nat) {
    && i < |rows| && j < |rows|
    && DayOf(rows[i]) == DayOf(rows[j])
    && norm(rows[i].description) == norm(rows[j].description) != ""
  }

  lemma TwinsAreTwins(rows: seq<Entry>, norm: string -> string, i: nat)
    requires i < |rows|
    ensures Increasing(Twins(rows, norm, i))
    ensures forall j :: j in Twins(rows, norm, i) <==> AreTwins(rows, norm, i, j)
  {
    hide Select, Increasing;
    var all := Upto(|rows|);
    var onDay := InGroup<nat>(DayKey(rows), DayOf(rows[i]));
    var alike := InGroup<nat>(TextKey(rows, norm), norm(rows[i].description));
    UptoIsAll(|rows|);
    SelectLaws(all, onDay);
    SelectLaws(Select(all, onDay), HasText(rows, norm));
    hide Select, Upto, DayOf;
    SelectLaws(DescribedOn(rows, norm, DayOf(rows[i])), alike);
  }

  lemma SelectLaws(xs: seq<nat>, p: nat -> bool)
    requires Increasing(xs)
    ensures Increasing(Select(xs, p)) && forall x :: x in Select(xs, p) <==> x in xs && p(x)
  {
    SelectIncreases(xs, p);
    SelectKeeps(xs, p);
  }

  lemma SeveralIffAnother(xs: seq<nat>, i: nat)
    requires Increasing(xs) && i in xs
    ensures |xs| > 1 <==> exists j :: j in xs && j != i
  {
    if |xs| > 1 {
      assert xs[0] in xs && xs[1] in xs && xs[0] < xs[1];
    }
  }

  predicate Duplicated(rows: seq<Entry>, norm: string -> string, i: nat) {
    i < |rows| && |Twins(rows, norm, i)| > 1
  }

  /** The pairwise meaning of being a duplicate. */
  lemma DuplicatedIffTwin(rows: seq<Entry>, norm: string -> string, i: nat)
    requires i < |rows|
    ensures Duplicated(rows, norm, i) <==> exists j :: 0 <= j < |rows| && j != i && AreTwins(rows, norm, i, j)
  {
    var twins := Twins(rows, norm, i);
    TwinsAreTwins(rows, norm, i);
    if norm(rows[i].description) != "" {
      assert AreTwins(rows, norm, i, i);
      SeveralIffAnother(twins, i);
    } else {
      HasElement(twins);
    }
  }

  /** Exactly the duplicated rows of the scope are flagged, once each, with the number of their twins. */
  ghost predicate Flags(flags: seq<Flag>, rows: seq<Entry>, norm: string -> string, scope: set<nat>) {
    && (forall a, b :: 0 <= a < b < |flags| ==> flags[a].row != flags[b].row)
    && (forall a :: 0 <= a < |flags| ==> IsFlag(flags[a], rows, norm) && flags[a].row in scope)
    && (forall i :: i in scope && Duplicated(rows, norm, i) ==> Flagged(flags, i))
  }

  predicate IsFlag(f: Flag, rows: seq<Entry>, norm: string -> string) {
    Duplicated(rows, norm, f.row) && f.times == |Twins(rows, norm, f.row)|
  }

  predicate Flagged(flags: seq<Flag>, i: nat) {
    exists a :: 0 <= a < |flags| && flags[a].row == i
  }

  lemma FlagsJoin(f: seq<Flag>, g: seq<Flag>, rows: seq<Entry>, norm: string -> string, s: set<nat>, t: set<nat>)
    requires Flags(f, rows, norm, s) && Flags(g, rows, norm, t) && s !! t
    ensures Flags(f + g, rows, norm, s + t)
  {
    hide Duplicated, IsFlag;
    forall i | i in s + t && Duplicated(rows, norm, i) ensures Flagged(f + g, i) {
      if i in s {
        var a :| 0 <= a < |f| && f[a].row == i;
        assert (f + g)[a].row == i;
      } else {
        var a :| 0 <= a < |g| && g[a].row == i;
        assert (f + g)[|f| + a].row == i;
      }
    }
  }

  // -------------------------------------------------------------------- loops

  /** desc_tracker */
  method Track(rows: seq<Entry>) returns (tracker: Dict)
    ensures GroupsBy(tracker, Upto(|rows|), DayKey(rows))
  {
    hide GroupsBy, Append;
    tracker := EMPTY;
    EmptyGroups(DayKey(rows));
    for i := 0 to |rows|
      invariant GroupsBy(tracker, Upto(i), DayKey(rows))
    {
      AppendGroups(tracker, Upto(i), DayKey(rows), i);
      tracker := Append(tracker, DayOf(rows[i]), i);
    }
  }

  lemma EmptyGroups(key: nat -> string)
    ensures GroupsBy(EMPTY, [], key)
  {
  }

  /** seen_descs */
  method CollectDescriptions(rows: seq<Entry>, norm: string -> string, entries: seq<nat>) returns (seen: Dict)
    requires forall e: nat :: e in entries ==> e < |rows|
    ensures GroupsBy(seen, Select(entries, HasText(rows, norm)), TextKey(rows, norm))
  {
    hide GroupsBy, Append;
    seen := EMPTY;
    EmptyGroups(TextKey(rows, norm));
    for n := 0 to |entries|
      invariant GroupsBy(seen, Select(entries[..n], HasText(rows, norm)), TextKey(rows, norm))
    {
      assert entries[..n + 1][..n] == entries[..n];
      assert entries[n] in entries;
      var d := norm(rows[entries[n]].description);
      var before := Select(entries[..n], HasText(rows, norm));
      assert HasText(rows, norm)(entries[n]) <==> d != "";
      if d == "" {
        assert before + [] == before;
      } else {
        AppendGroups(seen, before, TextKey(rows, norm), entries[n]);
        seen := Append(seen, d, entries[n]);
      }
    }
    assert entries[..|entries|] == entries;
  }

  function Members(xs: seq<nat>): set<nat> {
    set i | i in xs
  }

  /** The flags of one list of equal descriptions. */
  method FlagDuplicates(rows: seq<Entry>, norm: string -> string, dupes: seq<nat>) returns (flags: seq<Flag>)
    requires forall i: nat :: i in dupes ==> i < |rows| && Twins(rows, norm, i) == dupes
    requires Increasing(dupes)
    ensures Flags(flags, rows, norm, Members(dupes))
  {
    hide Twins, HasText;
    flags := [];
    if |dupes| > 1 {
      for n := 0 to |dupes|
        invariant Flags(flags, rows, norm, Members(dupes[..n]))
      {
        var dup := dupes[n];
        assert dup in dupes;
        FlagsOne(rows, norm, dup);
        FlagsJoin(flags, [Flag(dup, |dupes|)], rows, norm, Members(dupes[..n]), {dup});
        assert Members(dupes[..n + 1]) == Members(dupes[..n]) + {dup};
        flags := flags + [Flag(dup, |dupes|)];
      }
      assert dupes[..|dupes|] == dupes;
    }
  }

  lemma FlagsOne(rows: seq<Entry>, norm: string -> string, i: nat)
    requires Duplicated(rows, norm, i)
    ensures Flags([Flag(i, |Twins(rows, norm, i)|)], rows, norm, {i})
  {
    hide Twins;
    var flags := [Flag(i, |Twins(rows, norm, i)|)];
    assert flags[0].row == i;
  }

  /** The entries whose key is among `ks`. */
  function WithKey(xs: seq<nat>, key: nat -> string, ks: seq<string>): set<nat> {
    set i | i in xs && key(i) in ks
  }

  lemma WithOneMore(xs: seq<nat>, key: nat -> string, ks: seq<string>, n: nat)
    requires NoDuplicates(ks) && n < |ks|
    ensures WithKey(xs, key, ks[..n + 1]) == WithKey(xs, key, ks[..n]) + Members(Group(xs, key, ks[n]))
    ensures WithKey(xs, key, ks[..n]) !! Members(Group(xs, key, ks[n]))
  {
    SelectKeeps(xs, InGroup(key, ks[n]));
    assert ks[..n + 1] == ks[..n] + [ks[n]];
    assert ks[n] !in ks[..n];
  }

  lemma WithAllKeys(xs: seq<nat>, key: nat -> string, ks: seq<string>)
    requires Covers(ks, xs, key)
    ensures WithKey(xs, key, ks) == Members(xs)
  {
    forall i | i in xs ensures key(i) in ks {
      var j :| 0 <= j < |xs| && xs[j] == i;
      assert key(xs[j]) in ks;
    }
  }

  lemma {:induction false} SelectIsShorter(xs: seq<nat>, p: nat -> bool)
    ensures |Select(xs, p)| <= |xs|
  {
    if xs == [] {
    } else {
      SelectIsShorter(xs[..|xs| - 1], p);
    }
  }

  lemma FlagsWiden(flags: seq<Flag>, rows: seq<Entry>, norm: string -> string, s: set<nat>, t: set<nat>)
    requires Flags(flags, rows, norm, s) && s <= t && forall i :: i in t - s ==> !Duplicated(rows, norm, i)
    ensures Flags(flags, rows, norm, t)
  {
    hide Duplicated;
  }

  lemma Textless(rows: seq<Entry>, norm: string -> string, i: nat)
    requires i < |rows| && !HasText(rows, norm)(i)
    ensures !Duplicated(rows, norm, i)
  {
    TwinsAreTwins(rows, norm, i);
    HasElement(Twins(rows, norm, i));
  }

  lemma LonelyDay(rows: seq<Entry>, norm: string -> string, i: nat)
    requires i < |rows| && |Group(Upto(|rows|), DayKey(rows), DayOf(rows[i]))| < 2
    ensures !Duplicated(rows, norm, i)
  {
    var day := Group(Upto(|rows|), DayKey(rows), DayOf(rows[i]));
    SelectIsShorter(day, HasText(rows, norm));
    SelectIsShorter(DescribedOn(rows, norm, DayOf(rows[i])), InGroup<nat>(TextKey(rows, norm), norm(rows[i].description)));
  }

  lemma DayMembers(rows: seq<Entry>, day: string)
    ensures forall i: nat :: i in Group(Upto(|rows|), DayKey(rows), day) <==> i < |rows| && DayOf(rows[i]) == day
  {
    hide DayOf;
    UptoIsAll(|rows|);
    SelectKeeps(Upto(|rows|), InGroup<nat>(DayKey(rows), day));
  }

  /** A list of equal descriptions is the twins of each of its rows. */
  lemma ListIsTwins(rows: seq<Entry>, norm: string -> string, day: string, text: string)
    ensures
      var dupes := Group(DescribedOn(rows, norm, day), TextKey(rows, norm), text);
      Increasing(dupes) && forall i: nat :: i in dupes ==> i < |rows| && Twins(rows, norm, i) == dupes
  {
    var onDay := Group(Upto(|rows|), DayKey(rows), day);
    UptoIsAll(|rows|);
    SelectLaws(Upto(|rows|), InGroup<nat>(DayKey(rows), day));
    DayMembers(rows, day);
    SelectLaws(onDay, HasText(rows, norm));
    hide Select, Upto, DayOf;
    SelectLaws(DescribedOn(rows, norm, day), InGroup<nat>(TextKey(rows, norm), text));
  }

  /** One day's entries: nothing below two, else the repeated descriptions among them. */
  method FlagDay(rows: seq<Entry>, norm: string -> string, day: string, entries: seq<nat>) returns (flags: seq<Flag>)
    requires entries == Group(Upto(|rows|), DayKey(rows), day)
    ensures Flags(flags, rows, norm, Members(entries))
  {
    DayMembers(rows, day);
    hide Group, Upto, DayOf, Twins;
    flags := [];
    if |entries| < 2 {
      forall i | i in entries ensures !Duplicated(rows, norm, i) {
        LonelyDay(rows, norm, i);
      }
      return;
    }
    var seen := CollectDescriptions(rows, norm, entries);
    var described := DescribedOn(rows, norm, day);
    for n := 0 to |seen.keys|
      invariant Flags(flags, rows, norm, WithKey(described, TextKey(rows, norm), seen.keys[..n]))
    {
      var dupes := seen.lists[seen.keys[n]];
      ListIsTwins(rows, norm, day, seen.keys[n]);
      var more := FlagDuplicates(rows, norm, dupes);
      WithOneMore(described, TextKey(rows, norm), seen.keys, n);
      FlagsJoin(flags, more, rows, norm, WithKey(described, TextKey(rows, norm), seen.keys[..n]), Members(dupes));
      flags := flags + more;
    }
    assert seen.keys[..|seen.keys|] == seen.keys;
    WithAllKeys(described, TextKey(rows, norm), seen.keys);
    SelectKeeps(entries, HasText(rows, norm));
    forall i | i in Members(entries) - Members(described) ensures !Duplicated(rows, norm, i) {
      Textless(rows, norm, i);
    }
    FlagsWiden(flags, rows, norm, Members(described), Members(entries));
  }

  predicate HasTwin(rows: seq<Entry>, norm: string -> string, i: nat) {
    exists j :: 0 <= j < |rows| && j != i && AreTwins(rows, norm, i, j)
  }

  /** Exactly the rows with a twin are flagged, once each, with the number of rows alike. */
  method DetectDuplicates(rows: seq<Entry>, norm: string -> string) returns (flags: seq<Flag>)
    ensures forall a, b :: 0 <= a < b < |flags| ==> flags[a].row != flags[b].row
    ensures forall i: nat :: i < |rows| ==> (Flagged(flags, i) <==> HasTwin(rows, norm, i))
    ensures forall a :: 0 <= a < |flags| ==> flags[a].row < |rows| && flags[a].times == |Twins(rows, norm, flags[a].row)|
  {
    var tracker := Track(rows);
    flags := [];
    for n := 0 to |tracker.keys|
      invariant Flags(flags, rows, norm, WithKey(Upto(|rows|), DayKey(rows), tracker.keys[..n]))
    {
      hide Flags, Group, Upto;
      var day := tracker.keys[n];
      DayMembers(rows, day);
      var more := FlagDay(rows, norm, day, tracker.lists[day]);
      WithOneMore(Upto(|rows|), DayKey(rows), tracker.keys, n);
      FlagsJoin(flags, more, rows, norm, WithKey(Upto(|rows|), DayKey(rows), tracker.keys[..n]), Members(tracker.lists[day]));
      flags := flags + more;
    }
    assert tracker.keys[..|tracker.keys|] == tracker.keys;
    WithAllKeys(Upto(|rows|), DayKey(rows), tracker.keys);
    FlagsMeanTwins(rows, norm, flags);
  }

  lemma FlagsMeanTwins(rows: seq<Entry>, norm: string -> string, flags: seq<Flag>)
    requires Flags(flags, rows, norm, Members(Upto(|rows|)))
    ensures forall i: nat :: i < |rows| ==> (Flagged(flags, i) <==> HasTwin(rows, norm, i))
    ensures forall a :: 0 <= a < |flags| ==> flags[a].row < |rows| && flags[a].times == |Twins(rows, norm, flags[a].row)|
  {
    UptoIsAll(|rows|);
    forall i: nat | i < |rows| ensures Flagged(flags, i) <==> HasTwin(rows, norm, i) {
      DuplicatedIffTwin(rows, norm, i);
      hide Twins, AreTwins, Upto;
      assert i in Members(Upto(|rows|));
      if Flagged(flags, i) {
        var a :| 0 <= a < |flags| && flags[a].row == i;
        assert IsFlag(flags[a], rows, norm);
      }
    }
    hide Twins;
    forall a | 0 <= a < |flags| ensures flags[a].row < |rows| && flags[a].times == |Twins(rows, norm, flags[a].row)| {
      assert IsFlag(flags[a], rows, norm);
    }
  }

  // --------------------------------------------------------------- day keys

  predicate SameDayAndText(d: Entry, e: Entry, norm: string -> string) {
    d.userId == e.userId && d.logDate == e.logDate && norm(d.description) == norm(e.description) != ""
  }

  /** The longer id swallows the shorter one, a colon, and all of the shorter one's date up to another colon. */
  predicate Shifted(d: Entry, e: Entry) {
    && |d.userId| < |e.userId|
    && d.userId + ":" <= e.userId
    && d.logDate == e.userId[|d.userId| + 1..] + ":" + e.logDate
  }

  lemma SharedKeyShifts(d: Entry, e: Entry)
    requires DayOf(d) == DayOf(e) && |d.userId| < |e.userId|
    ensures Shifted(d, e)
  {
    var key := DayOf(d);
    assert key[|d.userId|] == ':' && key == e.userId + ":" + e.logDate;
    assert e.userId == key[..|e.userId|];
    assert d.userId == key[..|d.userId|] == e.userId[..|d.userId|];
    assert e.userId[|d.userId|] == ':';
    assert d.logDate == key[|d.userId| + 1..];
  }

  lemma ShiftedSharesKey(d: Entry, e: Entry)
    requires Shifted(d, e)
    ensures DayOf(d) == DayOf(e)
  {
    var rest := e.userId[|d.userId| + 1..];
    assert e.userId == d.userId + ":" + rest;
    assert DayOf(d) == d.userId + ":" + rest + ":" + e.logDate;
  }

  /** Two entries share a day key exactly when user and date agree, or one user id swallows part of the other entry's date. */
  lemma SharedKeyIff(d: Entry, e: Entry)
    ensures DayOf(d) == DayOf(e) <==> (d.userId == e.userId && d.logDate == e.logDate) || Shifted(d, e) || Shifted(e, d)
  {
    if DayOf(d) == DayOf(e) {
      if |d.userId| < |e.userId| {
        SharedKeyShifts(d, e);
      } else if |e.userId| < |d.userId| {
        SharedKeyShifts(e, d);
      } else {
        assert d.userId == DayOf(d)[..|d.userId|] == e.userId;
        assert d.logDate == DayOf(d)[|d.userId| + 1..] == e.logDate;
      }
    } else if Shifted(d, e) {
      ShiftedSharesKey(d, e);
    } else if Shifted(e, d) {
      ShiftedSharesKey(e, d);
    }
  }

  /** The exact twins of the code: same text, and the same user and date or a shift between them. */
  lemma TwinsIff(rows: seq<Entry>, norm: string -> string, i: nat, j: nat)
    requires i < |rows| && j < |rows|
    ensures AreTwins(rows, norm, i, j) <==>
      || SameDayAndText(rows[i], rows[j], norm)
      || ((Shifted(rows[i], rows[j]) || Shifted(rows[j], rows[i]))
          && norm(rows[i].description) == norm(rows[j].description) != "")
  {
    SharedKeyIff(rows[i], rows[j]);
  }

  /** A shift takes a colon in the longer id and in the other entry's date. */
  lemma ShiftNeedsColons(d: Entry, e: Entry)
    requires Shifted(d, e)
    ensures !ColonFree(e.userId) && !ColonFree(d.logDate)
  {
    assert e.userId[|d.userId|] == ':';
    assert d.logDate[|e.userId| - |d.userId| - 1] == ':';
  }

  /** With colon-free user ids, or with colon-free dates as in YYYY-MM-DD, twins are the same user, date and text. */
  lemma TwinsShareUserAndDate(rows: seq<Entry>, norm: string -> string, i: nat, j: nat)
    requires i < |rows| && j < |rows|
    requires || (ColonFree(rows[i].userId) && ColonFree(rows[j].userId))
             || (ColonFree(rows[i].logDate) && ColonFree(rows[j].logDate))
    ensures AreTwins(rows, norm, i, j) <==> SameDayAndText(rows[i], rows[j], norm)
  {
    TwinsIff(rows, norm, i, j);
    if Shifted(rows[i], rows[j]) {
      ShiftNeedsColons(rows[i], rows[j]);
    } else if Shifted(rows[j], rows[i]) {
      ShiftNeedsColons(rows[j], rows[i]);
    }
  }

  /** With a colon in a user id and in a date, entries of two users on two dates can count as duplicates. */
  lemma ColonsMergeUsers(norm: string -> string, text: string)
    requires norm(text) != ""
    ensures
      var rows := [Entry("ann", "7:2026-03-02", text), Entry("ann:7", "2026-03-02", text)];
      HasTwin(rows, norm, 0) && !SameDayAndText(rows[0], rows[1], norm) && Shifted(rows[0], rows[1])
  {
    var rows := [Entry("ann", "7:2026-03-02", text), Entry("ann:7", "2026-03-02", text)];
    assert DayOf(rows[0]) == "ann:7:2026-03-02" == DayOf(rows[1]);
    assert AreTwins(rows, norm, 0, 1);
    SharedKeyShifts(rows[0], rows[1]);
  }
}
