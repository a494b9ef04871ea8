/** SQL tables as sequences of rows: `SUM` and `COUNT` with the laws the proofs use. */
module Tables {

  /** SUM(f) over all rows. */
  function Sum<T>(rows: seq<T>, f: T -> real): real {
    if rows == [] then 0.0 else Sum(rows[..|rows| - 1], f) + f(rows[|rows| - 1])
  }

  /** COUNT(*) WHERE p. */
  function Count<T>(rows: seq<T>, p: T -> bool): nat {
    if rows == [] then 0
    else Count(rows[..|rows| - 1], p) + if p(rows[|rows| - 1]) then 1 else 0
  }

  lemma {:induction false} SumAppend<T>(rows: seq<T>, x: T, f: T -> real)
    ensures Sum(rows + [x], f) == Sum(rows, f) + f(x)
  {
    assert (rows + [x])[..|rows|] == rows;
  }

  lemma {:induction false} CountAppend<T>(rows: seq<T>, x: T, p: T -> bool)
    ensures Count(rows + [x], p) == Count(rows, p) + if p(x) then 1 else 0
  {
    assert (rows + [x])[..|rows|] == rows;
  }

  lemma {:induction false} SumConcat<T>(a: seq<T>, b: seq<T>, f: T -> real)
    ensures Sum(a + b, f) == Sum(a, f) + Sum(b, f)
  {
    if b == [] {
      assert a + b == a;
    } else {
      assert (a + b)[..|a + b| - 1] == a + b[..|b| - 1];
      SumConcat(a, b[..|b| - 1], f);
    }
  }

  lemma {:induction false} CountConcat<T>(a: seq<T>, b: seq<T>, p: T -> bool)
    ensures Count(a + b, p) == Count(a, p) + Count(b, p)
  {
    if b == [] {
      assert a + b == a;
    } else {
      assert (a + b)[..|a + b| - 1] == a + b[..|b| - 1];
      CountConcat(a, b[..|b| - 1], p);
    }
  }

  /** Rows that contribute alike give equal sums. */
  lemma {:induction false} SumSame<S, T>(a: seq<S>, b: seq<T>, f: S -> real, g: T -> real)
    requires |a| == |b|
    requires forall i :: 0 <= i < |a| ==> f(a[i]) == g(b[i])
    ensures Sum(a, f) == Sum(b, g)
  {
    if a == [] {
    } else {
      var n := |a| - 1;
      assert f(a[n]) == g(b[n]);
      SumSame(a[..n], b[..n], f, g);
    }
  }

  lemma {:induction false} CountSame<S, T>(a: seq<S>, b: seq<T>, p: S -> bool, q: T -> bool)
    requires |a| == |b|
    requires forall i :: 0 <= i < |a| ==> p(a[i]) == q(b[i])
    ensures Count(a, p) == Count(b, q)
  {
    if a == [] {
    } else {
      var n := |a| - 1;
      assert p(a[n]) == q(b[n]);
      CountSame(a[..n], b[..n], p, q);
    }
  }

  lemma {:induction false} CountMonotone<S, T>(a: seq<S>, b: seq<T>, p: S -> bool, q: T -> bool)
    requires |a| == |b|
    requires forall i :: 0 <= i < |a| && p(a[i]) ==> q(b[i])
    ensures Count(a, p) <= Count(b, q)
  {
    if a == [] {
    } else {
      var n := |a| - 1;
      assert p(a[n]) ==> q(b[n]);
      CountMonotone(a[..n], b[..n], p, q);
    }
  }

  /** A sum split into two parts, row by row. */
  lemma {:induction false} SumSplit<T>(rows: seq<T>, f: T -> real, g: T -> real, h: T -> real)
    requires forall i :: 0 <= i < |rows| ==> f(rows[i]) == g(rows[i]) + h(rows[i])
    ensures Sum(rows, f) == Sum(rows, g) + Sum(rows, h)
  {
    if rows == [] {
    } else {
      var n := |rows| - 1;
      assert f(rows[n]) == g(rows[n]) + h(rows[n]);
      SumSplit(rows[..n], f, g, h);
    }
  }

  lemma {:induction false} SumUpdate<T>(rows: seq<T>, i: nat, x: T, f: T -> real)
    requires i < |rows|
    ensures Sum(rows[i := x], f) == Sum(rows, f) - f(rows[i]) + f(x)
  {
    var n := |rows| - 1;
    if i == n {
      assert rows[i := x][..n] == rows[..n];
    } else {
      assert rows[i := x][..n] == rows[..n][i := x];
      SumUpdate(rows[..n], i, x, f);
    }
  }

  /** A count split into two parts, row by row. */
  lemma {:induction false} CountSplit<T>(rows: seq<T>, p: T -> bool, q: T -> bool, r: T -> bool)
    requires forall i :: 0 <= i < |rows| ==> if p(rows[i]) then q(rows[i]) != r(rows[i]) else !q(rows[i]) && !r(rows[i])
    ensures Count(rows, p) == Count(rows, q) + Count(rows, r)
  {
    if rows == [] {
    } else {
      var n := |rows| - 1;
      assert if p(rows[n]) then q(rows[n]) != r(rows[n]) else !q(rows[n]) && !r(rows[n]);
      CountSplit(rows[..n], p, q, r);
    }
  }

  /** Rows counted once are counted by one of two covering conditions. */
  lemma {:induction false} CountCovered<T>(rows: seq<T>, p: T -> bool, q: T -> bool, r: T -> bool)
    requires forall i :: 0 <= i < |rows| && p(rows[i]) ==> q(rows[i]) || r(rows[i])
    ensures Count(rows, p) <= Count(rows, q) + Count(rows, r)
  {
    if rows == [] {
    } else {
      var n := |rows| - 1;
      assert p(rows[n]) ==> q(rows[n]) || r(rows[n]);
      CountCovered(rows[..n], p, q, r);
    }
  }

  lemma {:induction false} CountUpdate<T>(rows: seq<T>, i: nat, x: T, p: T -> bool)
    requires i < |rows|
    ensures Count(rows[i := x], p)
         == Count(rows, p) - (if p(rows[i]) then 1 else 0) + (if p(x) then 1 else 0)
  {
    var n := |rows| - 1;
    if i == n {
      assert rows[i := x][..n] == rows[..n];
    } else {
      assert rows[i := x][..n] == rows[..n][i := x];
      CountUpdate(rows[..n], i, x, p);
    }
  }

  lemma {:induction false} CountNone<T>(rows: seq<T>, p: T -> bool)
    ensures Count(rows, p) == 0 <==> forall i :: 0 <= i < |rows| ==> !p(rows[i])
  {
    if rows == [] {
    } else {
      var n := |rows| - 1;
      CountNone(rows[..n], p);
      assert forall i :: 0 <= i < n ==> rows[..n][i] == rows[i];
    }
  }

  lemma {:induction false} CountAll<T>(rows: seq<T>, p: T -> bool)
    requires forall i :: 0 <= i < |rows| ==> p(rows[i])
    ensures Count(rows, p) == |rows|
  {
    if rows == [] {
    } else {
      var n := |rows| - 1;
      assert p(rows[n]);
      CountAll(rows[..n], p);
    }
  }

  lemma {:induction false} SumZero<T>(rows: seq<T>, f: T -> real)
    requires forall i :: 0 <= i < |rows| ==> f(rows[i]) == 0.0
    ensures Sum(rows, f) == 0.0
  {
    if rows == [] {
    } else {
      var n := |rows| - 1;
      assert f(rows[n]) == 0.0;
      SumZero(rows[..n], f);
    }
  }

  /** Positions of the rows that a WHERE selects. */
  function Positions<T>(rows: seq<T>, p: T -> bool): set<nat> {
    set i: nat | i < |rows| && p(rows[i])
  }

  /** COUNT is the number of rows selected. */
  lemma {:induction false} CountIsNumber<T>(rows: seq<T>, p: T -> bool)
    ensures |Positions(rows, p)| == Count(rows, p)
  {
    if rows == [] {
    } else {
      var n := |rows| - 1;
      CountIsNumber(rows[..n], p);
      assert Positions(rows, p) == if p(rows[n]) then Positions(rows[..n], p) + {n} else Positions(rows[..n], p);
    }
  }
}
