/** Money and hours: real numbers with the two-decimal rounding the services apply. */
module Numbers {
  import opened Tables

  /** Nearest integer, halves to the even neighbour, as Python's `round` does. */
  function RoundHalfEven(x: real): (n: int)
    ensures -0.5 <= n as real - x <= 0.5
  {
    var below := x.Floor;
    var rest := x - below as real;
    if rest < 0.5 || (rest == 0.5 && below % 2 == 0) then below else below + 1
  }

  /** n is an integer nearest to x, and of two equally near ones the even one. */
  predicate NearestEven(n: int, x: real) {
    -0.5 <= n as real - x <= 0.5 && (n as real - x == 0.5 || n as real - x == -0.5 ==> n % 2 == 0)
  }

  /** Rounding is pinned at every input, exact halves included. */
  lemma RoundsToNearestEven(x: real, n: int)
    ensures RoundHalfEven(x) == n <==> NearestEven(n, x)
  {
    if NearestEven(n, x) {
      assert n == x.Floor || n == x.Floor + 1;
    }
  }

  function Round2(x: real): (r: real)
    ensures -0.005 <= r - x <= 0.005
  {
    RoundHalfEven(x * 100.0) as real / 100.0
  }

  /** Hours at a rate, to the cent. */
  function Amount(hours: real, rate: real): real {
    Round2(hours * rate)
  }

  /** A whole number of cents within half a cent of x; of two such, the even number of cents. */
  ghost predicate NearestCent(amount: real, x: real) {
    exists n: int :: CentsOf(n) == amount && NearestEven(n, x * 100.0)
  }

  /** At every input the nearest cent is one number. */
  lemma NearestCentIsUnique(a: real, b: real, x: real)
    requires NearestCent(a, x) && NearestCent(b, x)
    ensures a == b && -0.005 <= a - x <= 0.005
  {
    var m :| CentsOf(m) == a && NearestEven(m, x * 100.0);
    var n :| CentsOf(n) == b && NearestEven(n, x * 100.0);
    RoundsToNearestEven(x * 100.0, m);
    RoundsToNearestEven(x * 100.0, n);
  }

  lemma Round2IsNearestCent(x: real)
    ensures NearestCent(Round2(x), x)
  {
    var n := RoundHalfEven(x * 100.0);
    RoundsToNearestEven(x * 100.0, n);
    assert CentsOf(n) == Round2(x);
  }

  /** The cent nearest to hours times rate: never more than half a cent away. */
  ghost predicate IsPrice(amount: real, hours: real, rate: real) {
    NearestCent(amount, hours * rate) && -0.005 <= amount - hours * rate <= 0.005
  }

  lemma AmountIsPrice(hours: real, rate: real)
    ensures IsPrice(Amount(hours, rate), hours, rate)
  {
    Round2IsNearestCent(hours * rate);
  }

  lemma AmountIsCents(hours: real, rate: real)
    ensures IsCents(Amount(hours, rate))
    ensures rate == 0.0 ==> Amount(hours, rate) == 0.0
  {
    Round2IsCents(hours * rate);
    if rate == 0.0 {
      assert hours * rate == 0.0;
      ZeroIsCents();
      CentsAreFixed(0.0);
    }
  }

  function Round1(x: real): (r: real)
    ensures -0.05 <= r - x <= 0.05
  {
    RoundHalfEven(x * 10.0) as real / 10.0
  }

  /** A whole number of tenths nearest to x; of two such, the even number. */
  ghost predicate NearestTenth(tenths: real, x: real) {
    exists n: int :: TenthsOf(n) == tenths && NearestEven(n, x * 10.0)
  }

  function TenthsOf(n: int): real {
    n as real / 10.0
  }

  lemma Round1IsNearestTenth(x: real)
    ensures NearestTenth(Round1(x), x)
  {
    var n := RoundHalfEven(x * 10.0);
    RoundsToNearestEven(x * 10.0, n);
    assert TenthsOf(n) == Round1(x);
  }

  /** A whole number of cents. */
  ghost predicate IsCents(x: real) {
    exists n: int :: CentsOf(n) == x
  }

  function CentsOf(n: int): real {
    n as real / 100.0
  }

  lemma Round2IsCents(x: real)
    ensures IsCents(Round2(x))
  {
    assert CentsOf(RoundHalfEven(x * 100.0)) == Round2(x);
  }

  lemma ZeroIsCents()
    ensures IsCents(0.0)
  {
    assert CentsOf(0) == 0.0;
  }

  lemma CentsAreFixed(x: real)
    requires IsCents(x)
    ensures Round2(x) == x
  {
    var n :| CentsOf(n) == x;
    assert x * 100.0 == n as real;
  }

  lemma CentsAdd(x: real, y: real)
    requires IsCents(x) && IsCents(y)
    ensures IsCents(x + y)
  {
    var m :| CentsOf(m) == x;
    var n :| CentsOf(n) == y;
    assert CentsOf(m + n) == x + y;
  }

  lemma Round2Monotone(x: real, y: real)
    requires x <= y
    ensures Round2(x) <= Round2(y)
  {
    assert x * 100.0 <= y * 100.0;
    RoundHalfEvenMonotone(x * 100.0, y * 100.0);
  }

  lemma RoundHalfEvenMonotone(x: real, y: real)
    requires x <= y
    ensures RoundHalfEven(x) <= RoundHalfEven(y)
  {
    assert x.Floor <= y.Floor;
  }

  lemma {:induction false} SumIsCents<T>(rows: seq<T>, f: T -> real)
    requires forall i :: 0 <= i < |rows| ==> IsCents(f(rows[i]))
    ensures IsCents(Sum(rows, f))
  {
    if rows == [] {
      ZeroIsCents();
    } else {
      var n := |rows| - 1;
      SumIsCents(rows[..n], f);
      assert IsCents(f(rows[n]));
      CentsAdd(Sum(rows[..n], f), f(rows[n]));
    }
  }
}
