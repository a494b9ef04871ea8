/**
 Products and quotients of reals by name.  Proofs about sums hide the two
 functions, so that only the laws below are used and the rest is linear.
 */
module Algebra {

  function Times(a: real, b: real): real {
    a * b
  }

  function Over(a: real, b: real): real
    requires b != 0.0
  {
    a / b
  }

  function Square(x: real): real {
    Times(x, x)
  }

  lemma Commutes(a: real, b: real)
    ensures Times(a, b) == Times(b, a)
  {
  }

  lemma Associates(a: real, b: real, c: real)
    ensures Times(a, Times(b, c)) == Times(Times(a, b), c)
  {
  }

  lemma Distributes(a: real, x: real, y: real)
    ensures Times(a, x + y) == Times(a, x) + Times(a, y) && Times(a, x - y) == Times(a, x) - Times(a, y)
    ensures Times(x + y, a) == Times(x, a) + Times(y, a) && Times(x - y, a) == Times(x, a) - Times(y, a)
  {
  }

  lemma Units(a: real)
    ensures Times(1.0, a) == a == Times(a, 1.0) && Times(0.0, a) == 0.0 == Times(a, 0.0)
  {
  }

  lemma Negates(a: real, b: real)
    ensures Times(-a, b) == -Times(a, b) == Times(a, -b)
  {
  }

  lemma Divides(x: real, n: real)
    requires n != 0.0
    ensures Times(n, Over(x, n)) == x == Times(Over(x, n), n)
  {
  }

  /** A product with a positive factor has the sign of the other factor. */
  lemma SignOfProduct(n: real, d: real)
    requires n > 0.0
    ensures Times(n, d) > 0.0 <==> d > 0.0
    ensures Times(n, d) == 0.0 <==> d == 0.0
  {
    if d > 0.0 {
      assert n * d > 0.0;
    } else if d < 0.0 {
      assert n * (-d) > 0.0;
      Negates(n, d);
    } else {
      Units(n);
    }
  }

  lemma ZeroProduct(n: real, d: real)
    ensures Times(n, d) == 0.0 <==> n == 0.0 || d == 0.0
  {
    if n > 0.0 {
      SignOfProduct(n, d);
    } else if n < 0.0 {
      SignOfProduct(-n, d);
      Negates(n, d);
    } else {
      Units(d);
    }
  }

  lemma SquareSign(v: real)
    ensures 0.0 <= Square(v)
    ensures Square(v) == 0.0 <==> v == 0.0
  {
    hide Times;
    if v > 0.0 {
      SignOfProduct(v, v);
    } else if v < 0.0 {
      SignOfProduct(-v, -v);
      Negates(v, v);
      Negates(v, -v);
    } else {
      Units(v);
    }
  }

  lemma SquareOfDifference(r: real, d: real)
    ensures Square(r - d) == Square(r) - 2.0 * Times(d, r) + Square(d)
  {
    hide Times;
    Distributes(r - d, r, d);
    Distributes(r, r, d);
    Distributes(d, r, d);
    Commutes(r, d);
  }

  /** The square of a x + b. */
  lemma SquareOfSum(a: real, b: real, x: real)
    ensures Square(Times(a, x) + b) == Times(Square(a), Square(x)) + 2.0 * Times(Times(a, b), x) + Square(b)
  {
    hide Times;
    var ax := Times(a, x);
    Distributes(ax + b, ax, b);
    Distributes(ax, ax, b);
    Distributes(b, ax, b);
    Commutes(ax, b);
    Associates(b, a, x);
    Commutes(a, b);
    // (a x)(a x) == (a a)(x x)
    Associates(ax, a, x);
    Commutes(ax, a);
    Associates(a, a, x);
    Associates(Square(a), x, x);
  }
}
