/**
  The transcendental functions the engine takes from Python's float arithmetic
  (`10 ** x`, `math.exp`, `math.sqrt`).  They are not given a formula here: a
  `Numerics` value carries them, and `Valid()` lists the laws the true functions
  obey.  Every fact proved from `Valid()` therefore holds of the real functions,
  which are one admissible instance.
 */
module Numerics {

  datatype Numerics = Numerics(pow10: real -> real, exp: real -> real, sqrt: real -> real)
  {
    /**
      The trigger of the two-argument laws in `Valid()`: they are used where a
      proof asks for them through the lemmas below, not in every context that
      assumes `Valid()`.
     */
    ghost predicate Pair(x: real, y: real) {
      true
    }

    ghost predicate Valid() {
      // 10^x is positive, 10^x * 10^-x == 1, and strictly increasing
      && (forall x :: pow10(x) > 0.0)
      && (forall x, y {:trigger Pair(x, y)} :: x + y == 0.0 ==> pow10(x) * pow10(y) == 1.0)
      && (forall x, y {:trigger Pair(x, y)} :: x < y ==> pow10(x) < pow10(y))
      // e^x likewise, and it lies above its tangent at 0
      && (forall x :: exp(x) > 0.0)
      && (forall x, y {:trigger Pair(x, y)} :: x + y == 0.0 ==> exp(x) * exp(y) == 1.0)
      && (forall x, y {:trigger Pair(x, y)} :: x < y ==> exp(x) < exp(y))
      && (forall x :: exp(x) >= 1.0 + x)
      // the non-negative square root of a non-negative number
      && (forall x :: x >= 0.0 ==> sqrt(x) >= 0.0 && sqrt(x) * sqrt(x) == x)
    }
  }

  /** 10^x * 10^-x == 1. */
  lemma Pow10Inverse(num: Numerics, x: real)
    requires num.Valid()
    ensures num.pow10(x) * num.pow10(-x) == 1.0
  {
    assert num.Pair(x, -x);
  }

  /** 10^x is strictly increasing. */
  lemma Pow10Monotone(num: Numerics, x: real, y: real)
    requires num.Valid() && x < y
    ensures num.pow10(x) < num.pow10(y)
  {
    assert num.Pair(x, y);
  }

  /** e^x * e^-x == 1. */
  lemma ExpInverse(num: Numerics, x: real)
    requires num.Valid()
    ensures num.exp(x) * num.exp(-x) == 1.0
  {
    assert num.Pair(x, -x);
  }

  /** e^x is strictly increasing. */
  lemma ExpMonotone(num: Numerics, x: real, y: real)
    requires num.Valid() && x < y
    ensures num.exp(x) < num.exp(y)
  {
    assert num.Pair(x, y);
  }

  /** A non-negative number whose square is one is one. */
  lemma UnitSquare(c: real)
    requires c >= 0.0 && c * c == 1.0
    ensures c == 1.0
  {
    if c > 1.0 {
      SquareStrict(1.0, c);
      assert false;
    } else if c < 1.0 {
      SquareStrict(c, 1.0);
      assert false;
    }
  }

  lemma SquareStrict(a: real, b: real)
    requires 0.0 <= a < b
    ensures a * a < b * b
  {
    var d := b - a;
    assert b * b == a * a + d * (a + b);
    assert d * (a + b) > 0.0;
  }

  /** Squaring is strictly increasing on the non-negative reals. */
  lemma SquareMonotone(a: real, b: real)
    requires a >= 0.0 && b >= 0.0 && a * a < b * b
    ensures a < b
  {
  }

  /** If a * b == 1 with a positive and b >= 1 + y, then a * (1 + y) <= 1. */
  lemma ReciprocalBelow(a: real, b: real, y: real)
    requires a > 0.0 && a * b == 1.0 && b >= 1.0 + y
    ensures a * (1.0 + y) <= 1.0
  {
    assert a * (1.0 + y) <= a * b;
  }

  lemma Pow10AtZero(num: Numerics)
    requires num.Valid()
    ensures num.pow10(0.0) == 1.0
  {
    var p := num.pow10(0.0);
    Pow10Inverse(num, 0.0);
    assert p * p == 1.0;
    UnitSquare(p);
  }

  lemma ExpAtZero(num: Numerics)
    requires num.Valid()
    ensures num.exp(0.0) == 1.0
  {
    var e := num.exp(0.0);
    ExpInverse(num, 0.0);
    assert e * e == 1.0;
    UnitSquare(e);
  }

  /** e^(-y) * (1 + y) <= 1 for y >= 0: the bound that makes the reliability curve approach 100. */
  lemma ExpNegBound(num: Numerics, y: real)
    requires num.Valid() && y >= 0.0
    ensures 0.0 < num.exp(-y) && num.exp(-y) * (1.0 + y) <= 1.0
  {
    var a, b := num.exp(-y), num.exp(y);
    ExpInverse(num, y);
    assert a * b == 1.0;
    ReciprocalBelow(a, b, y);
  }

  lemma SqrtPositive(num: Numerics, x: real)
    requires num.Valid() && x > 0.0
    ensures num.sqrt(x) > 0.0
  {
    assert num.sqrt(x) * num.sqrt(x) == x;
  }

  lemma SqrtMonotone(num: Numerics, x: real, y: real)
    requires num.Valid() && 0.0 <= x < y
    ensures num.sqrt(x) < num.sqrt(y)
  {
    var a, b := num.sqrt(x), num.sqrt(y);
    assert a * a == x && b * b == y && a >= 0.0 && b >= 0.0;
    SquareMonotone(a, b);
  }

  /** sqrt(1/x) * sqrt(x) == 1, so 1/sqrt(1/x) == sqrt(x). */
  lemma SqrtReciprocal(num: Numerics, x: real)
    requires num.Valid() && x > 0.0
    ensures num.sqrt(1.0 / x) * num.sqrt(x) == 1.0
  {
    var a, b := num.sqrt(1.0 / x), num.sqrt(x);
    assert a * a == 1.0 / x && b * b == x && a >= 0.0 && b >= 0.0;
    var c := a * b;
    assert c * c == (a * a) * (b * b);
    assert c * c == 1.0;
    UnitSquare(c);
  }
}
