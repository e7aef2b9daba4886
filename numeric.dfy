/**
 * Numeric groundwork: the foreign Math functions the steering code calls
 * (Math.sqrt, Math.atan2, Math.sin, Math.cos, Math.random), Math.abs, and
 * JavaScript's truncating remainder operator `%`.
 */
module Numeric {

  /** Math.PI, written as the decimal that the double constant prints as. */
  const PI: real := 3.141592653589793

  type NonNeg = r: real | 0.0 <= r
  type Positive = r: real | 0.0 < r witness 1.0

  /** One draw of Math.random(): a value in [0, 1). */
  type Uniform = u: real | 0.0 <= u < 1.0

  /**
   * The transcendental functions of JavaScript's Math object.  They are
   * foreign code, so the model receives them as values.  Math.sqrt never
   * returns a negative number; Valid() lists the remaining facts the proofs
   * rely on: sqrt(a) squares back to a for a >= 0, and (sin t, cos t) lies on
   * the unit circle.  Nothing is assumed about atan2.
   */
  datatype MathLib = MathLib(
    sqrt: real -> NonNeg,
    atan2: (real, real) -> real,
    sin: real -> real,
    cos: real -> real)
  {
    ghost predicate Valid() {
      && (forall a :: 0.0 <= a ==> sqrt(a) * sqrt(a) == a)
      && (forall t :: sin(t) * sin(t) + cos(t) * cos(t) == 1.0)
    }
  }

  /** Math.abs */
  function Abs(x: real): real {
    if x < 0.0 then -x else x
  }

  /** Rounds toward zero, as the quotient inside JavaScript's `%` does. */
  function Trunc(x: real): (r: int)
    ensures 0.0 <= x ==> 0 <= r && r as real <= x < r as real + 1.0
    ensures x < 0.0 ==> r <= 0 && r as real - 1.0 < x <= r as real
  {
    if 0.0 <= x then x.Floor else -((-x).Floor)
  }

  /**
   * JavaScript's `a % b` on numbers: a - b * trunc(a / b).  The remainder
   * takes the sign of the dividend, unlike Dafny's Euclidean `%`.
   */
  function JsRem(a: real, b: real): real
    requires b != 0.0
  {
    a - b * Trunc(a / b) as real
  }

  /** Math.random() - Math.random(), the "binomial" draw of the wander behaviours. */
  function RandomBinomial(u1: Uniform, u2: Uniform): (r: real)
    ensures -1.0 < r < 1.0
    ensures Abs(r) < 1.0
  {
    u1 - u2
  }

  // ---------------------------------------------------------------------
  // Products.  The solver does not relate two products by itself, so each
  // helper hands back the products it compares as named values.

  lemma MulMonotone(b: real, x: real, y: real) returns (lo: real, hi: real)
    requires 0.0 <= b && x <= y
    ensures lo == b * x && hi == b * y && lo <= hi
  {
    lo, hi := b * x, b * y;
    var d := y - x;
    var bd := b * d;
    assert hi - lo == bd;
  }

  lemma MulStrict(b: real, x: real, y: real) returns (lo: real, hi: real)
    requires 0.0 < b && x < y
    ensures lo == b * x && hi == b * y && lo < hi
  {
    lo, hi := b * x, b * y;
    var d := y - x;
    var bd := b * d;
    assert hi - lo == bd;
  }

  lemma SquareStrict(q: real, r: real)
    requires 0.0 <= q < r
    ensures q * q < r * r
  {
    var qq, qr := MulMonotone(q, q, r);
    var rq, rr := MulStrict(r, q, r);
    assert qr == rq;
  }

  lemma SquareNonNeg(x: real)
    ensures 0.0 <= x * x
    ensures x * x == 0.0 <==> x == 0.0
  {
    if x < 0.0 {
      var a, b := MulStrict(-x, 0.0, -x);
      assert b == x * x;
    } else if 0.0 < x {
      var a, b := MulStrict(x, 0.0, x);
    }
  }

  /** |k * x| == |k| * |x| */
  lemma AbsMul(k: real, x: real)
    ensures Abs(k * x) == Abs(k) * Abs(x)
  {
    if k < 0.0 && x < 0.0 {
      var a, b := MulStrict(-k, 0.0, -x);
    } else if k < 0.0 && 0.0 < x {
      var a, b := MulStrict(-k, 0.0, x);
    } else if 0.0 < k && x < 0.0 {
      var a, b := MulStrict(k, 0.0, -x);
    } else if 0.0 < k && 0.0 < x {
      var a, b := MulStrict(k, 0.0, x);
    }
  }

  /** Multiplying by a factor of size at most one never increases the size. */
  lemma AbsFraction(f: real, k: real)
    requires Abs(f) <= 1.0
    ensures Abs(f * k) <= Abs(k)
  {
    AbsMul(f, k);
    var lo, hi := MulMonotone(Abs(k), Abs(f), 1.0);
    assert lo == Abs(f) * Abs(k);
  }

  // ---------------------------------------------------------------------
  // Facts about the square root that follow from MathLib.Valid().

  /** The square root is the only non-negative number that squares to a. */
  lemma SqrtUnique(m: MathLib, a: real, r: real)
    requires m.Valid() && 0.0 <= a
    requires 0.0 <= r && r * r == a
    ensures m.sqrt(a) == r
  {
    var q := m.sqrt(a);
    if q < r {
      SquareStrict(q, r);
    } else if r < q {
      SquareStrict(r, q);
    }
  }

  lemma SqrtZero(m: MathLib)
    requires m.Valid()
    ensures m.sqrt(0.0) == 0.0
  {
    var s := m.sqrt(0.0);
    assert s * s == 0.0;
    SquareNonNeg(s);
  }

  lemma SqrtPositive(m: MathLib, a: real)
    requires m.Valid() && 0.0 < a
    ensures 0.0 < m.sqrt(a)
  {
    var s := m.sqrt(a);
    assert s * s == a;
  }

  /** sqrt(c * c * a) == |c| * s, where s is the root of a. */
  lemma SqrtScale(m: MathLib, c: real, a: real, s: real)
    requires m.Valid() && 0.0 <= a && s == m.sqrt(a)
    ensures m.sqrt(c * c * a) == Abs(c) * s
  {
    var ac := Abs(c);
    assert s * s == a;
    var p := ac * s;
    assert p * p == (ac * ac) * (s * s);
    assert ac * ac == c * c;
    var z, q := MulMonotone(ac, 0.0, s);
    SquareNonNeg(c);
    var ca := c * c * a;
    assert 0.0 <= ca by {
      var u, w := MulMonotone(c * c, 0.0, a);
    }
    SqrtUnique(m, ca, p);
  }
}
