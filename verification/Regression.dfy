/**
 The forecast's linear regression over the reals, and when its line is a
 least-squares line.
 */
module Regression {
  import opened Algebra
  import opened Tables

  const EPSILON := 0.0000000001

  function Itself(): real -> real {
    (x: real) => x
  }

  /** sum(xs) */
  function Total(xs: seq<real>): real {
    Sum(xs, Itself())
  }

  /** sum(x * y for x, y in zip(xs, ys)) */
  function Dot(xs: seq<real>, ys: seq<real>): real
    requires |xs| == |ys|
  {
    if xs == [] then 0.0 else Dot(xs[..|xs| - 1], ys[..|ys| - 1]) + Times(xs[|xs| - 1], ys[|ys| - 1])
  }

  function Size(xs: seq<real>): real {
    |xs| as real
  }

  function Denominator(xs: seq<real>): real {
    Times(Size(xs), Dot(xs, xs)) - Times(Total(xs), Total(xs))
  }

  function Covariation(xs: seq<real>, ys: seq<real>): real
    requires |xs| == |ys|
  {
    Times(Size(xs), Dot(xs, ys)) - Times(Total(xs), Total(ys))
  }

  datatype Line = Line(slope: real, intercept: real)

  function At(l: Line, x: real): real {
    Times(l.slope, x) + l.intercept
  }

  function Abs(x: real): real {
    if x < 0.0 then -x else x
  }

  /** `_linear_regression`: too few points or a denominator below the threshold give a flat line. */
  function LinearRegression(xs: seq<real>, ys: seq<real>): Line
    requires |xs| == |ys|
  {
    if |xs| < 2 then Line(0.0, 0.0)
    else if Abs(Denominator(xs)) < EPSILON then FlatLine(ys)
    else FittedLine(xs, ys)
  }

  function FlatLine(ys: seq<real>): Line
    requires ys != []
  {
    Line(0.0, Over(Total(ys), Size(ys)))
  }

  function FittedLine(xs: seq<real>, ys: seq<real>): Line
    requires |xs| == |ys| && xs != [] && Denominator(xs) != 0.0
  {
    var slope := Over(Covariation(xs, ys), Denominator(xs));
    Line(slope, Over(Total(ys) - Times(slope, Total(xs)), Size(xs)))
  }

  /** Squared error of a line over the points. */
  function SquaredError(xs: seq<real>, ys: seq<real>, l: Line): real
    requires |xs| == |ys|
  {
    if xs == [] then 0.0
    else
      var n := |xs| - 1;
      SquaredError(xs[..n], ys[..n], l) + Square(ys[n] - At(l, xs[n]))
  }

  ghost predicate LeastSquares(xs: seq<real>, ys: seq<real>, l: Line)
    requires |xs| == |ys|
  {
    forall other: Line :: SquaredError(xs, ys, l) <= SquaredError(xs, ys, other)
  }

  // ------------------------------------------------------------ sums of squares

  /** Sum of squares of a line over the xs: how far apart two lines are. */
  function Spread(xs: seq<real>, l: Line): real {
    if xs == [] then 0.0
    else
      var n := |xs| - 1;
      Spread(xs[..n], l) + Square(At(l, xs[n]))
  }

  lemma {:induction false} SpreadSign(xs: seq<real>, l: Line)
    ensures 0.0 <= Spread(xs, l)
    ensures Spread(xs, l) == 0.0 <==> forall i :: 0 <= i < |xs| ==> At(l, xs[i]) == 0.0
  {
    hide At, Square;
    if xs == [] {
    } else {
      var n := |xs| - 1;
      SpreadSign(xs[..n], l);
      SquareSign(At(l, xs[n]));
      assert forall i :: 0 <= i < n ==> xs[..n][i] == xs[i];
    }
  }

  lemma {:induction false} SpreadExpands(xs: seq<real>, a: real, b: real)
    ensures Spread(xs, Line(a, b)) == Times(Square(a), Dot(xs, xs)) + 2.0 * Times(Times(a, b), Total(xs)) + Times(Size(xs), Square(b))
  {
    hide Times, Square;
    if xs == [] {
      Units(Square(a));
      Units(Times(a, b));
      Units(Square(b));
    } else {
      var n := |xs| - 1;
      SpreadExpands(xs[..n], a, b);
      SquareOfSum(a, b, xs[n]);
      Distributes(Square(a), Dot(xs[..n], xs[..n]), Square(xs[n]));
      Distributes(Times(a, b), Total(xs[..n]), xs[n]);
      Distributes(Square(b), Size(xs[..n]), 1.0);
      Units(Square(b));
      SquareIs(xs[n]);
    }
  }

  lemma SquareIs(x: real)
    ensures Square(x) == Times(x, x)
  {
  }

  // ---------------------------------------------------------------- residuals

  function Residuals(xs: seq<real>, ys: seq<real>, l: Line): (rs: seq<real>)
    requires |xs| == |ys|
    ensures |rs| == |xs|
  {
    seq(|xs|, i requires 0 <= i < |xs| => ys[i] - At(l, xs[i]))
  }

  lemma ResidualsSnoc(xs: seq<real>, ys: seq<real>, l: Line)
    requires |xs| == |ys| && xs != []
    ensures
      var n := |xs| - 1;
      Residuals(xs, ys, l)[..n] == Residuals(xs[..n], ys[..n], l) && Residuals(xs, ys, l)[n] == ys[n] - At(l, xs[n])
  {
    hide At;
  }

  lemma MomentOfPoint(x: real, y: real, l: Line)
    ensures Times(x, y - At(l, x)) == Times(x, y) - Times(l.slope, Times(x, x)) - Times(l.intercept, x)
  {
    hide Times;
    Distributes(x, y, At(l, x));
    Distributes(x, Times(l.slope, x), l.intercept);
    Commutes(x, Times(l.slope, x));
    Associates(l.slope, x, x);
    Commutes(x, l.intercept);
  }

  lemma {:induction false} ResidualTotal(xs: seq<real>, ys: seq<real>, l: Line)
    requires |xs| == |ys|
    ensures Total(Residuals(xs, ys, l)) == Total(ys) - Times(l.slope, Total(xs)) - Times(Size(xs), l.intercept)
  {
    hide Times;
    if xs == [] {
      Units(l.slope);
      Units(l.intercept);
    } else {
      var n := |xs| - 1;
      ResidualTotal(xs[..n], ys[..n], l);
      ResidualsSnoc(xs, ys, l);
      Distributes(l.slope, Total(xs[..n]), xs[n]);
      Distributes(l.intercept, Size(xs[..n]), 1.0);
      Units(l.intercept);
    }
  }

  lemma {:induction false} ResidualMoment(xs: seq<real>, ys: seq<real>, l: Line)
    requires |xs| == |ys|
    ensures Dot(xs, Residuals(xs, ys, l)) == Dot(xs, ys) - Times(l.slope, Dot(xs, xs)) - Times(l.intercept, Total(xs))
  {
    hide Times;
    if xs == [] {
      Units(l.slope);
      Units(l.intercept);
    } else {
      var n := |xs| - 1;
      ResidualMoment(xs[..n], ys[..n], l);
      ResidualsSnoc(xs, ys, l);
      MomentOfPoint(xs[n], ys[n], l);
      Distributes(l.slope, Dot(xs[..n], xs[..n]), Times(xs[n], xs[n]));
      Distributes(l.intercept, Total(xs[..n]), xs[n]);
    }
  }

  function Moved(l: Line, step: Line): Line {
    Line(l.slope + step.slope, l.intercept + step.intercept)
  }

  lemma MovedPoint(x: real, y: real, l: Line, step: Line)
    ensures
      var r := y - At(l, x);
      Square(y - At(Moved(l, step), x))
        == Square(r) - 2.0 * (Times(step.slope, Times(x, r)) + Times(step.intercept, r)) + Square(At(step, x))
  {
    hide Times, Square;
    var r, d := y - At(l, x), At(step, x);
    Distributes(x, l.slope, step.slope);
    assert y - At(Moved(l, step), x) == r - d;
    SquareOfDifference(r, d);
    Distributes(r, Times(step.slope, x), step.intercept);
    Associates(step.slope, x, r);
  }

  /** Moving a line changes its error by its residual sums and the spread of the move. */
  lemma {:induction false} MovedError(xs: seq<real>, ys: seq<real>, l: Line, step: Line)
    requires |xs| == |ys|
    ensures
      var rs := Residuals(xs, ys, l);
      SquaredError(xs, ys, Moved(l, step))
        == SquaredError(xs, ys, l) - 2.0 * (Times(step.slope, Dot(xs, rs)) + Times(step.intercept, Total(rs))) + Spread(xs, step)
  {
    hide At, Square, Moved, Times;
    if xs == [] {
      Units(step.slope);
      Units(step.intercept);
    } else {
      var n := |xs| - 1;
      var r := ys[n] - At(l, xs[n]);
      MovedError(xs[..n], ys[..n], l, step);
      ResidualsSnoc(xs, ys, l);
      MovedPoint(xs[n], ys[n], l, step);
      var rs := Residuals(xs[..n], ys[..n], l);
      Distributes(step.slope, Dot(xs[..n], rs), Times(xs[n], r));
      Distributes(step.intercept, Total(rs), r);
    }
  }

  /** Residuals sum to zero and are orthogonal to the xs. */
  ghost predicate Normal(xs: seq<real>, ys: seq<real>, l: Line)
    requires |xs| == |ys|
  {
    Total(Residuals(xs, ys, l)) == 0.0 && Dot(xs, Residuals(xs, ys, l)) == 0.0
  }

  /** A line with such residuals beats every other line by the spread between them. */
  lemma NormalLineIsLeast(xs: seq<real>, ys: seq<real>, l: Line)
    requires |xs| == |ys| && Normal(xs, ys, l)
    ensures forall step: Line :: SquaredError(xs, ys, Moved(l, step)) == SquaredError(xs, ys, l) + Spread(xs, step)
    ensures LeastSquares(xs, ys, l)
  {
    hide Times;
    forall step: Line ensures SquaredError(xs, ys, Moved(l, step)) == SquaredError(xs, ys, l) + Spread(xs, step) {
      MovedError(xs, ys, l, step);
      Units(step.slope);
      Units(step.intercept);
    }
    forall o: Line ensures SquaredError(xs, ys, l) <= SquaredError(xs, ys, o) {
      var step := Line(o.slope - l.slope, o.intercept - l.intercept);
      assert Moved(l, step) == o;
      SpreadSign(xs, step);
    }
  }

  // ------------------------------------------------------------ denominator

  predicate AllEqual(xs: seq<real>) {
    forall i, j :: 0 <= i < |xs| && 0 <= j < |xs| ==> xs[i] == xs[j]
  }

  lemma {:induction false} SumsOfEqual(xs: seq<real>, ys: seq<real>, x: real)
    requires |xs| == |ys| && forall i :: 0 <= i < |xs| ==> xs[i] == x
    ensures Total(xs) == Times(Size(xs), x) && Dot(xs, ys) == Times(x, Total(ys))
  {
    hide Times;
    Units(x);
    if xs == [] {
    } else {
      var n := |xs| - 1;
      SumsOfEqual(xs[..n], ys[..n], x);
      Distributes(x, Size(xs[..n]), 1.0);
      Distributes(x, Total(ys[..n]), ys[n]);
    }
  }

  lemma EqualXsDoNotCovary(xs: seq<real>, ys: seq<real>)
    requires |xs| == |ys| && AllEqual(xs)
    ensures Covariation(xs, ys) == 0.0
  {
    hide Times;
    if xs == [] {
      Units(Dot(xs, ys));
      Units(Total(ys));
    } else {
      SumsOfEqual(xs, ys, xs[0]);
      Associates(Size(xs), xs[0], Total(ys));
    }
  }

  lemma ScaledSpread(n: real, t: real, s: real)
    ensures Times(Square(n), s) + 2.0 * Times(Times(n, -t), t) + Times(n, Square(-t)) == Times(n, Times(n, s) - Times(t, t))
  {
    hide Times;
    Associates(n, n, s);
    Associates(n, -t, t);
    Negates(t, t);
    Negates(n, Times(t, t));
    Negates(t, -t);
    Distributes(n, Times(n, s), Times(t, t));
  }

  /** n times the denominator is the spread of the xs around their mean, scaled by n. */
  lemma DenominatorIsSpread(xs: seq<real>)
    ensures Spread(xs, Line(Size(xs), -Total(xs))) == Times(Size(xs), Denominator(xs))
  {
    hide Times, Square, Spread, Dot, Total;
    SpreadExpands(xs, Size(xs), -Total(xs));
    ScaledSpread(Size(xs), Total(xs), Dot(xs, xs));
  }

  lemma ZeroOfLine(l: Line, x: real, y: real)
    requires l.slope != 0.0 && At(l, x) == 0.0 && At(l, y) == 0.0
    ensures x == y
  {
    hide Times;
    Distributes(l.slope, x, y);
    ZeroProduct(l.slope, x - y);
  }

  /** The denominator is never negative, and zero exactly when all xs are equal. */
  lemma DenominatorSign(xs: seq<real>)
    ensures 0.0 <= Denominator(xs)
    ensures Denominator(xs) == 0.0 <==> AllEqual(xs)
  {
    hide Times, Spread, Dot, Total, Denominator;
    var l := Line(Size(xs), -Total(xs));
    if AllEqual(xs) {
      EqualXsDoNotCovary(xs, xs);
      DenominatorIsCovariation(xs);
    }
    if xs != [] {
      DenominatorIsSpread(xs);
      SpreadSign(xs, l);
      SignOfProduct(Size(xs), Denominator(xs));
      if Denominator(xs) == 0.0 {
        forall i, j | 0 <= i < |xs| && 0 <= j < |xs| ensures xs[i] == xs[j] {
          ZeroOfLine(l, xs[i], xs[j]);
        }
      }
    }
  }

  lemma DenominatorIsCovariation(xs: seq<real>)
    ensures Denominator(xs) == Covariation(xs, xs)
  {
  }

  // -------------------------------------------------------------- optimality

  lemma FitAlgebra(n: real, tx: real, ty: real, sxx: real, sxy: real, m: real, b: real)
    requires Times(n, b) == ty - Times(m, tx)
    requires Times(m, Times(n, sxx) - Times(tx, tx)) == Times(n, sxy) - Times(tx, ty)
    ensures Times(n, sxy - Times(m, sxx) - Times(b, tx)) == 0.0
  {
    hide Times;
    Distributes(n, sxy - Times(m, sxx), Times(b, tx));
    Distributes(n, sxy, Times(m, sxx));
    Associates(n, b, tx);
    Distributes(tx, ty, Times(m, tx));
    Commutes(tx, ty);
    Associates(n, m, sxx);
    Commutes(n, m);
    Associates(m, n, sxx);
    Distributes(m, Times(n, sxx), Times(tx, tx));
    Associates(m, tx, tx);
  }

  lemma FittedLineIsNormal(xs: seq<real>, ys: seq<real>)
    requires |xs| == |ys| && xs != [] && Denominator(xs) != 0.0
    ensures Normal(xs, ys, FittedLine(xs, ys))
  {
    hide Times, Over, Total, Dot, Residuals;
    var l := FittedLine(xs, ys);
    Divides(Total(ys) - Times(l.slope, Total(xs)), Size(xs));
    Divides(Covariation(xs, ys), Denominator(xs));
    ResidualTotal(xs, ys, l);
    ResidualMoment(xs, ys, l);
    FitAlgebra(Size(xs), Total(xs), Total(ys), Dot(xs, xs), Dot(xs, ys), l.slope, l.intercept);
    ZeroProduct(Size(xs), Dot(xs, Residuals(xs, ys, l)));
  }

  /** The flat line through the mean is normal exactly when the points do not covary. */
  lemma FlatLineIsNormalIff(xs: seq<real>, ys: seq<real>)
    requires |xs| == |ys| && xs != []
    ensures Normal(xs, ys, FlatLine(ys)) <==> Covariation(xs, ys) == 0.0
  {
    hide Times, Over, Total, Dot, Residuals;
    var n, l := Size(xs), FlatLine(ys);
    Divides(Total(ys), n);
    ResidualTotal(xs, ys, l);
    ResidualMoment(xs, ys, l);
    Units(Total(xs));
    Units(Dot(xs, xs));
    Distributes(n, Dot(xs, ys), Times(l.intercept, Total(xs)));
    Associates(n, l.intercept, Total(xs));
    Commutes(Total(xs), Total(ys));
    ZeroProduct(n, Dot(xs, Residuals(xs, ys, l)));
  }

  /** A flat answer is beaten by the fitted line whenever the points covary. */
  lemma FlatLineIsBeaten(xs: seq<real>, ys: seq<real>)
    requires |xs| == |ys| && xs != [] && Covariation(xs, ys) != 0.0
    ensures !LeastSquares(xs, ys, FlatLine(ys))
  {
    hide Times, Over, Total, Dot, Covariation, Denominator, SquaredError, Spread, Normal;
    if AllEqual(xs) {
      EqualXsDoNotCovary(xs, ys);
    }
    DenominatorSign(xs);
    var best, flat := FittedLine(xs, ys), FlatLine(ys);
    Divides(Covariation(xs, ys), Denominator(xs));
    ZeroProduct(best.slope, Denominator(xs));
    FittedLineIsNormal(xs, ys);
    NormalLineIsLeast(xs, ys, best);
    var step := Line(flat.slope - best.slope, flat.intercept - best.intercept);
    assert Moved(best, step) == flat;
    SpreadSign(xs, step);
    if Spread(xs, step) == 0.0 {
      forall i, j | 0 <= i < |xs| && 0 <= j < |xs| ensures xs[i] == xs[j] {
        ZeroOfLine(step, xs[i], xs[j]);
      }
    }
    assert SquaredError(xs, ys, best) < SquaredError(xs, ys, flat);
  }

  lemma OnePoint(xs: seq<real>, ys: seq<real>)
    requires |xs| == |ys| == 1
    ensures LeastSquares(xs, ys, Line(0.0, 0.0)) <==> ys[0] == 0.0
  {
    hide Times, Square;
    assert xs[..0] == [] && ys[..0] == [];
    assert forall o: Line :: SquaredError(xs, ys, o) == Square(ys[0] - At(o, xs[0]));
    Units(xs[0]);
    SquareSign(ys[0]);
    SquareSign(0.0);
    assert SquaredError(xs, ys, Line(0.0, ys[0])) == 0.0;
    forall o: Line ensures 0.0 <= SquaredError(xs, ys, o) {
      SquareSign(ys[0] - At(o, xs[0]));
    }
  }

  /** Exactly when the answer is a least-squares line: enough spread for the threshold, or nothing to fit. */
  predicate Fits(xs: seq<real>, ys: seq<real>)
    requires |xs| == |ys|
  {
    || |xs| == 0
    || (|xs| == 1 && ys[0] == 0.0)
    || (|xs| >= 2 && (Denominator(xs) >= 0.0000000001 || Covariation(xs, ys) == 0.0))
  }

  lemma RegressionIsLeastSquaresIff(xs: seq<real>, ys: seq<real>)
    requires |xs| == |ys|
    ensures LeastSquares(xs, ys, LinearRegression(xs, ys)) <==> Fits(xs, ys)
  {
    if |xs| == 0 {
      assert forall o: Line :: SquaredError(xs, ys, o) == 0.0;
    } else if |xs| == 1 {
      OnePoint(xs, ys);
    } else {
      hide Denominator, Covariation, FittedLine, FlatLine, LeastSquares, Normal;
      DenominatorSign(xs);
      if Denominator(xs) >= EPSILON {
        FittedLineIsNormal(xs, ys);
        NormalLineIsLeast(xs, ys, FittedLine(xs, ys));
      } else if Covariation(xs, ys) == 0.0 {
        FlatLineIsNormalIff(xs, ys);
        NormalLineIsLeast(xs, ys, FlatLine(ys));
      } else {
        FlatLineIsBeaten(xs, ys);
      }
    }
  }

  /** With a usable denominator the residuals sum to zero, are orthogonal to the xs, and no other line does better. */
  lemma RegressionNormalEquations(xs: seq<real>, ys: seq<real>)
    requires |xs| == |ys| && |xs| >= 2 && Denominator(xs) >= EPSILON
    ensures Normal(xs, ys, LinearRegression(xs, ys)) && LeastSquares(xs, ys, LinearRegression(xs, ys))
  {
    hide Denominator, FittedLine, LeastSquares, Normal;
    FittedLineIsNormal(xs, ys);
    NormalLineIsLeast(xs, ys, FittedLine(xs, ys));
  }

  // ------------------------------------------------------------ week series

  function WeekIndices(n: nat): seq<real> {
    seq(n, i => i as real)
  }

  lemma CubicStep(k: real)
    ensures Times(k - 1.0, k - 2.0) + 2.0 * (k - 1.0) == Times(k, k - 1.0)
    ensures Times(Times(k - 1.0, k - 2.0), 2.0 * k - 3.0) + 6.0 * Times(k - 1.0, k - 1.0)
         == Times(Times(k, k - 1.0), 2.0 * k - 1.0)
  {
    assert ((k - 1.0) * (k - 2.0)) * (2.0 * k - 3.0) == (k - 1.0) * ((k - 2.0) * (2.0 * k - 3.0));
    assert (k - 2.0) * (2.0 * k - 3.0) + 6.0 * (k - 1.0) == k * (2.0 * k - 1.0);
    Distributes(k - 1.0, (k - 2.0) * (2.0 * k - 3.0), 6.0 * (k - 1.0));
    assert (k - 1.0) * (k * (2.0 * k - 1.0)) == (k * (k - 1.0)) * (2.0 * k - 1.0);
  }

  lemma {:induction false} IndexSums(n: nat)
    ensures 2.0 * Total(WeekIndices(n)) == Times(n as real, n as real - 1.0)
    ensures 6.0 * Dot(WeekIndices(n), WeekIndices(n)) == Times(Times(n as real, n as real - 1.0), 2.0 * n as real - 1.0)
  {
    hide Times;
    if n == 0 {
      Units(-1.0);
    } else {
      IndexSums(n - 1);
      assert WeekIndices(n)[..n - 1] == WeekIndices(n - 1);
      CubicStep(n as real);
    }
  }

  lemma QuarticForm(k: real, s: real, t: real)
    requires 2.0 * t == Times(k, k - 1.0) && 6.0 * s == Times(Times(k, k - 1.0), 2.0 * k - 1.0)
    ensures 12.0 * (Times(k, s) - Times(t, t)) == Times(Square(k), Square(k) - 1.0)
  {
    var p := k * (k - 1.0);
    assert 12.0 * (k * s) == 2.0 * (k * (6.0 * s));
    assert 12.0 * (t * t) == 3.0 * ((2.0 * t) * (2.0 * t));
    assert k * (p * (2.0 * k - 1.0)) == p * (k * (2.0 * k - 1.0));
    Distributes(p, 2.0 * (k * (2.0 * k - 1.0)), 3.0 * p);
    assert 2.0 * (k * (2.0 * k - 1.0)) - 3.0 * p == k * (k + 1.0);
    assert p * (k * (k + 1.0)) == (k * k) * ((k - 1.0) * (k + 1.0));
    assert (k - 1.0) * (k + 1.0) == k * k - 1.0;
  }

  /** Week indices always spread: the denominator is n^2 (n^2 - 1) / 12 and the degenerate branch is never taken. */
  lemma WeeksSpread(n: nat)
    ensures 12.0 * Denominator(WeekIndices(n)) == Times(Square(n as real), Square(n as real) - 1.0)
    ensures n >= 2 ==> Denominator(WeekIndices(n)) >= 1.0 > EPSILON
  {
    hide Total, Dot;
    var k := n as real;
    IndexSums(n);
    QuarticForm(k, Dot(WeekIndices(n), WeekIndices(n)), Total(WeekIndices(n)));
    if n >= 2 {
      AtLeastTwelve(k);
    }
  }

  lemma AtLeastTwelve(k: real)
    requires k >= 2.0
    ensures Times(Square(k), Square(k) - 1.0) >= 12.0
  {
    assert k * k >= 2.0 * 2.0;
    assert (k * k) * (k * k - 1.0) >= 4.0 * 3.0;
  }

  lemma MeanAlgebra(k: real, m: real, b: real, tx: real, ty: real)
    requires k > 0.0 && 2.0 * tx == Times(k, k - 1.0) && Times(k, b) == ty - Times(m, tx)
    ensures Times(m, (k - 1.0) / 2.0) + b == Over(ty, k)
  {
    var h := (k - 1.0) / 2.0;
    assert tx == Times(k, h);
    hide Times, Over;
    Associates(m, k, h);
    Commutes(m, k);
    Associates(k, m, h);
    Distributes(k, Times(m, h), b);
    Divides(ty, k);
    Distributes(k, Times(m, h) + b, Over(ty, k));
    ZeroProduct(k, Times(m, h) + b - Over(ty, k));
  }

  /** The weekly trend line is a least-squares line and passes the mean week at the average burn. */
  lemma TrendPassesTheAverage(weekly: seq<real>)
    requires |weekly| >= 2
    ensures
      var n := |weekly|;
      var l := LinearRegression(WeekIndices(n), weekly);
      && LeastSquares(WeekIndices(n), weekly, l)
      && At(l, (n as real - 1.0) / 2.0) == Over(Total(weekly), n as real)
  {
    hide Total, Dot, Denominator, Covariation, LeastSquares, Normal, Times, Over;
    var xs, k := WeekIndices(|weekly|), |weekly| as real;
    WeeksSpread(|weekly|);
    RegressionNormalEquations(xs, weekly);
    IndexSums(|weekly|);
    var l := FittedLine(xs, weekly);
    Divides(Total(weekly) - Times(l.slope, Total(xs)), k);
    MeanAlgebra(k, l.slope, l.intercept, Total(xs), Total(weekly));
  }

  /** The series the forecast builds in one pass: running totals, and the average at the end. */
  method ForecastSeries(weekly: seq<real>) returns (cumulative: seq<real>, running: real, average: real)
    requires |weekly| >= 2
    ensures |cumulative| == |weekly|
    ensures forall i :: 0 <= i < |weekly| ==> cumulative[i] == Total(weekly[..i + 1])
    ensures running == Total(weekly) == cumulative[|weekly| - 1]
    ensures average == At(LinearRegression(WeekIndices(|weekly|), weekly), (|weekly| as real - 1.0) / 2.0)
  {
    cumulative, running := [], 0.0;
    for i := 0 to |weekly|
      invariant |cumulative| == i && running == Total(weekly[..i])
      invariant forall j :: 0 <= j < i ==> cumulative[j] == Total(weekly[..j + 1])
    {
      assert weekly[..i + 1][..i] == weekly[..i];
      running := running + weekly[i];
      cumulative := cumulative + [running];
    }
    assert weekly[..|weekly|] == weekly;
    TrendPassesTheAverage(weekly);
    average := Over(running, |weekly| as real);
  }
}
