/** The few facts of real arithmetic the proofs lean on, each in a context of its own. A product
    is passed in under a name so that its sign is a fact about that name. */
module Algebra {

  lemma ProductSign(x: real, y: real, z: real)
    requires z == x * y
    ensures x > 0.0 && y > 0.0 ==> z > 0.0
    ensures x >= 0.0 && y >= 0.0 ==> z >= 0.0
  {
  }

  lemma SquareSign(x: real, s: real)
    requires s == x * x
    ensures s >= 0.0
    ensures x != 0.0 ==> s > 0.0
  {
    if x >= 0.0 {
      ProductSign(x, x, s);
    } else {
      ProductSign(-x, -x, s);
    }
  }

  /** A positive factor can be dropped from a sign condition. */
  lemma FactorSign(p: real, q: real, z: real)
    requires p > 0.0 && z == p * q
    ensures z > 0.0 ==> q > 0.0
    ensures z >= 0.0 ==> q >= 0.0
  {
    if q < 0.0 {
      ProductSign(p, -q, -z);
    }
  }

  lemma Cancel(x: real, y: real, k: real)
    requires k != 0.0 && x * k == y * k
    ensures x == y
  {
    assert (x - y) * k == 0.0;
  }

  lemma Quotient(x: real, s: real)
    requires s != 0.0
    ensures (x / s) * s == x
  {
  }

  /** The order of nonnegative numbers can be read off their squares. */
  lemma RootOrder(a: real, b: real, a2: real, b2: real)
    requires a >= 0.0 && b >= 0.0 && a2 == a * a && b2 == b * b
    ensures a2 <= b2 <==> a <= b
  {
    assert b2 - a2 == (b - a) * (b + a);
    if a <= b {
      ProductSign(b - a, b + a, b2 - a2);
    } else {
      ProductSign(a - b, a + b, a2 - b2);
    }
  }

  function Square(x: real): real { x * x }

  lemma SquareRoot(a: real, b: real)
    requires a >= 0.0 && b >= 0.0 && Square(a) == Square(b)
    ensures a == b
  {
    RootOrder(a, b, Square(a), Square(b));
    RootOrder(b, a, Square(b), Square(a));
  }

  /** A cosine and a sine. */
  predicate Unit(c: real, s: real) { c * c + s * s == 1.0 }

  lemma CircleScale(d: real, c: real, s: real)
    requires c * c + s * s == 1.0
    ensures (d * c) * (d * c) + (d * s) * (d * s) == d * d
  {
    assert (d * c) * (d * c) + (d * s) * (d * s) == (d * d) * (c * c + s * s);
  }

  function AbsReal(x: real): real { if x < 0.0 then -x else x }

  lemma AbsSquare(x: real)
    ensures AbsReal(x) >= 0.0 && AbsReal(x) * AbsReal(x) == Square(x)
  {
  }

  /** Sizes compare as squares do. */
  lemma AbsOrder(x: real, y: real)
    ensures AbsReal(x) <= AbsReal(y) <==> Square(x) <= Square(y)
    ensures AbsReal(x) == AbsReal(y) <==> Square(x) == Square(y)
  {
    AbsSquare(x);
    AbsSquare(y);
    hide AbsReal;
    RootOrder(AbsReal(x), AbsReal(y), Square(x), Square(y));
    RootOrder(AbsReal(y), AbsReal(x), Square(y), Square(x));
  }
}
