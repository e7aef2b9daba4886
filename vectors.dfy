/**
 * The immutable 2-D vector of the steering library.  Every operation builds
 * a new vector, so the JavaScript class becomes a datatype.
 */
module Vectors {
  import opened Numeric

  datatype Vec = Vec(x: real, y: real)
  {
    function Add(v: Vec): Vec {
      Vec(x + v.x, y + v.y)
    }

    function Subtract(v: Vec): Vec {
      Vec(x - v.x, y - v.y)
    }

    function Scale(k: real): Vec {
      Vec(x * k, y * k)
    }

    function LengthSquared(): real {
      x * x + y * y
    }

    function Length(m: MathLib): real {
      m.sqrt(LengthSquared())
    }

    /** The zero vector stays zero; any other vector is divided by its length. */
    function Normalize(m: MathLib): Vec {
      var len := Length(m);
      if len == 0.0 then Vec(0.0, 0.0) else Vec(x / len, y / len)
    }

    /** Math.atan2(y, x). */
    function Angle(m: MathLib): real {
      m.atan2(y, x)
    }

    function InvertX(): Vec {
      Vec(-x, y)
    }

    function InvertY(): Vec {
      Vec(x, -y)
    }

    function Clone(): Vec {
      Vec(x, y)
    }
  }

  const Zero := Vec(0.0, 0.0)

  /**
   * The speed limit every behaviour applies: a vector longer than `limit`
   * is replaced by the normalized vector scaled to `limit`.
   */
  function Clamp(v: Vec, limit: real, m: MathLib): Vec {
    if v.Length(m) > limit then v.Normalize(m).Scale(limit) else v
  }

  // ---------------------------------------------------------------------
  // Algebra.

  lemma AddSubtract(v: Vec, w: Vec)
    ensures v.Add(w).Subtract(w) == v
    ensures v.Subtract(w).Add(w) == v
  {}

  lemma InvertXInvolution(v: Vec)
    ensures v.InvertX().InvertX() == v
    ensures v.InvertX().LengthSquared() == v.LengthSquared()
  {}

  lemma InvertYInvolution(v: Vec)
    ensures v.InvertY().InvertY() == v
    ensures v.InvertY().LengthSquared() == v.LengthSquared()
  {}

  lemma CloneIsCopy(v: Vec)
    ensures v.Clone() == v
  {}

  // ---------------------------------------------------------------------
  // Length.

  lemma ScaleSquares(a: real, b: real, k: real)
    ensures (a * k) * (a * k) + (b * k) * (b * k) == k * k * (a * a + b * b)
  {}

  lemma LengthSquaredScale(v: Vec, k: real)
    ensures v.Scale(k).LengthSquared() == k * k * v.LengthSquared()
  {
    ScaleSquares(v.x, v.y, k);
  }

  lemma LengthSquaredZero(v: Vec)
    ensures 0.0 <= v.LengthSquared()
    ensures v.LengthSquared() == 0.0 <==> v == Zero
  {
    SquareNonNeg(v.x);
    SquareNonNeg(v.y);
  }

  /** Scaling multiplies the length by |k|. */
  lemma LengthScale(m: MathLib, v: Vec, k: real)
    requires m.Valid()
    ensures v.Scale(k).Length(m) == Abs(k) * v.Length(m)
  {
    LengthSquaredZero(v);
    LengthSquaredScale(v, k);
    SqrtScale(m, k, v.LengthSquared(), v.Length(m));
  }

  lemma LengthPositive(m: MathLib, v: Vec)
    requires m.Valid() && v != Zero
    ensures 0.0 < v.Length(m)
  {
    LengthSquaredZero(v);
    SqrtPositive(m, v.LengthSquared());
  }

  lemma LengthOfZero(m: MathLib)
    requires m.Valid()
    ensures Zero.Length(m) == 0.0
  {
    SqrtZero(m);
  }

  /** Only the zero vector has length zero. */
  lemma LengthZero(m: MathLib, v: Vec)
    requires m.Valid()
    ensures v.Length(m) == 0.0 <==> v == Zero
  {
    if v == Zero {
      LengthOfZero(m);
    } else {
      LengthPositive(m, v);
    }
  }

  // ---------------------------------------------------------------------
  // Normalize.

  /** normalize() returns the zero vector for the zero vector and only for it. */
  lemma NormalizeZero(m: MathLib, v: Vec)
    requires m.Valid()
    ensures v.Normalize(m) == Zero <==> v == Zero
  {
    LengthZero(m, v);
    if v != Zero {
      NormalizeUnit(m, v);
      LengthOfZero(m);
    }
  }

  /** A non-zero vector normalizes to a unit vector pointing the same way. */
  lemma NormalizeUnit(m: MathLib, v: Vec)
    requires m.Valid() && v != Zero
    ensures 0.0 < v.Length(m)
    ensures v.Normalize(m) == v.Scale(1.0 / v.Length(m))
    ensures v.Normalize(m).Length(m) == 1.0
  {
    LengthPositive(m, v);
    var len := v.Length(m);
    LengthScale(m, v, 1.0 / len);
    assert Abs(1.0 / len) * len == 1.0;
  }

  /** A unit vector scaled by k >= 0 has length k. */
  lemma UnitScaleLength(m: MathLib, n: Vec, k: real)
    requires m.Valid() && 0.0 <= k && n.Length(m) == 1.0
    ensures n.Scale(k).Length(m) == k
  {
    LengthScale(m, n, k);
  }

  /** Normalizing, then scaling by k >= 0, gives a vector of length k (or zero). */
  lemma NormalizeScaleLength(m: MathLib, v: Vec, k: real)
    requires m.Valid() && 0.0 <= k
    ensures v != Zero ==> v.Normalize(m).Scale(k).Length(m) == k
    ensures v == Zero ==> v.Normalize(m).Scale(k) == Zero
  {
    if v != Zero {
      NormalizeUnit(m, v);
      UnitScaleLength(m, v.Normalize(m), k);
    } else {
      NormalizeOfZero(m);
      assert Zero.Scale(k) == Zero;
    }
  }

  /** The difference of two points is the zero vector exactly when they coincide. */
  lemma SubtractZero(a: Vec, b: Vec)
    ensures a.Subtract(b) == Zero <==> a == b
  {}

  /**
   * The unit direction from one point to another, scaled by k >= 0, has
   * length k; it is the zero vector when the points coincide.
   */
  lemma DirectionScaleLength(m: MathLib, from: Vec, to: Vec, k: real)
    requires m.Valid() && 0.0 <= k
    ensures from != to ==> to.Subtract(from).Normalize(m).Scale(k).Length(m) == k
    ensures from == to ==> to.Subtract(from).Normalize(m).Scale(k) == Zero
  {
    SubtractZero(to, from);
    NormalizeScaleLength(m, to.Subtract(from), k);
  }

  lemma NormalizeOfZero(m: MathLib)
    ensures Zero.Normalize(m) == Zero
  {
    var len := Zero.Length(m);
    if len != 0.0 {
      assert 0.0 / len == 0.0;
    }
  }

  /** Reversing a vector reverses its normalized direction. */
  lemma NormalizeNegate(m: MathLib, v: Vec)
    requires m.Valid()
    ensures v.Scale(-1.0).Normalize(m) == v.Normalize(m).Scale(-1.0)
  {
    LengthScale(m, v, -1.0);
    assert v.Scale(-1.0).Length(m) == v.Length(m);
  }

  lemma ScaleNegate(v: Vec, k: real)
    ensures v.Scale(-1.0).Scale(k) == v.Scale(k).Scale(-1.0)
  {}

  // ---------------------------------------------------------------------
  // Clamp.

  /** With a non-negative limit the clamped vector is never longer than the limit. */
  lemma ClampBound(m: MathLib, v: Vec, limit: real)
    requires m.Valid() && 0.0 <= limit
    ensures Clamp(v, limit, m).Length(m) <= limit
  {
    if v.Length(m) > limit {
      LengthOfZero(m);
      NormalizeScaleLength(m, v, limit);
    }
  }

  /** A vector within the limit passes unchanged; a longer one comes out at exactly the limit. */
  lemma ClampLength(m: MathLib, v: Vec, limit: real)
    requires m.Valid() && 0.0 <= limit
    ensures v.Length(m) <= limit ==> Clamp(v, limit, m) == v
    ensures v.Length(m) > limit ==> Clamp(v, limit, m).Length(m) == limit
  {
    ClampBound(m, v, limit);
    if v.Length(m) > limit {
      LengthPositive(m, v) by { LengthOfZero(m); }
      NormalizeScaleLength(m, v, limit);
    }
  }

  /** Clamping only shortens: the result is v scaled by a factor in (0, 1]. */
  lemma ClampDirection(m: MathLib, v: Vec, limit: real)
    requires m.Valid() && 0.0 < limit
    ensures exists c: real :: 0.0 < c <= 1.0 && Clamp(v, limit, m) == v.Scale(c)
  {
    if v.Length(m) > limit {
      LengthPositive(m, v) by { LengthOfZero(m); }
      NormalizeUnit(m, v);
      var len := v.Length(m);
      var inv := 1.0 / len;
      assert inv * len == 1.0;
      var c := inv * limit;
      assert v.Normalize(m) == v.Scale(inv);
      assert v.Scale(inv).Scale(limit) == v.Scale(c) by {
        assert (v.x * inv) * limit == v.x * c;
        assert (v.y * inv) * limit == v.y * c;
      }
      var z, p := MulStrict(inv, 0.0, limit);
      var q, one := MulMonotone(inv, limit, len);
      assert 0.0 < c <= 1.0;
    } else {
      assert Clamp(v, limit, m) == v.Scale(1.0);
    }
  }
}
