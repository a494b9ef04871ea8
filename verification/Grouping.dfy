/** WHERE and GROUP BY over rows: a group is the rows that share a key. */
module Grouping {
  import opened Tables

  /** WHERE p. */
  function Select<T>(rows: seq<T>, p: T -> bool): seq<T> {
    if rows == [] then []
    else Select(rows[..|rows| - 1], p) + if p(rows[|rows| - 1]) then [rows[|rows| - 1]] else []
  }

  function InGroup<T>(key: T -> string, k: string): T -> bool {
    (row: T) => key(row) == k
  }

  /** The rows of one group of GROUP BY key. */
  function Group<T>(rows: seq<T>, key: T -> string, k: string): seq<T> {
    Select(rows, InGroup(key, k))
  }

  /** SUM(f) of one group. */
  function GroupSum<T>(rows: seq<T>, key: T -> string, f: T -> real): string -> real {
    (k: string) => Sum(Group(rows, key, k), f)
  }

  predicate NoDuplicates(ks: seq<string>) {
    forall i, j :: 0 <= i < j < |ks| ==> ks[i] != ks[j]
  }

  /** The keys of GROUP BY key: one for each value that occurs, in some order. */
  ghost predicate AreGroups<T>(ks: seq<string>, rows: seq<T>, key: T -> string) {
    && NoDuplicates(ks)
    && Covers(ks, rows, key)
    && forall k :: k in ks ==> exists i :: 0 <= i < |rows| && key(rows[i]) == k
  }

  predicate Covers<T>(ks: seq<string>, rows: seq<T>, key: T -> string) {
    forall i :: 0 <= i < |rows| ==> key(rows[i]) in ks
  }

  function Pulse(at: string, v: real): string -> real {
    (k: string) => if k == at then v else 0.0
  }

  lemma {:induction false} SumOfPulse(ks: seq<string>, at: string, v: real)
    requires NoDuplicates(ks)
    ensures Sum(ks, Pulse(at, v)) == if at in ks then v else 0.0
  {
    if ks == [] {
    } else {
      var n := |ks| - 1;
      SumOfPulse(ks[..n], at, v);
      assert ks == ks[..n] + [ks[n]];
      assert ks[n] == at ==> at !in ks[..n];
    }
  }

  /** Groups conserve totals: the group sums add up to the ungrouped sum. */
  lemma {:induction false} GroupsConserve<T>(ks: seq<string>, rows: seq<T>, key: T -> string, f: T -> real)
    requires NoDuplicates(ks) && Covers(ks, rows, key)
    ensures Sum(ks, GroupSum(rows, key, f)) == Sum(rows, f)
  {
    if rows == [] {
      SumZero(ks, GroupSum(rows, key, f));
    } else {
      var n := |rows| - 1;
      var last := rows[n];
      GroupsConserve(ks, rows[..n], key, f);
      SumOfPulse(ks, key(last), f(last));
      forall k ensures GroupSum(rows, key, f)(k) == GroupSum(rows[..n], key, f)(k) + Pulse(key(last), f(last))(k) {
        var before := Group(rows[..n], key, k);
        if key(last) == k {
          SumAppend(before, last, f);
        } else {
          assert before + [] == before;
        }
      }
      SumSplit(ks, GroupSum(rows, key, f), GroupSum(rows[..n], key, f), Pulse(key(last), f(last)));
    }
  }

  lemma {:induction false} SelectKeeps<T>(rows: seq<T>, p: T -> bool)
    ensures forall x :: x in Select(rows, p) ==> x in rows && p(x)
    ensures forall x :: x in rows && p(x) ==> x in Select(rows, p)
  {
    if rows == [] {
    } else {
      var n := |rows| - 1;
      SelectKeeps(rows[..n], p);
      assert rows == rows[..n] + [rows[n]];
    }
  }
}
