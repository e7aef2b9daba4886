/** The two angle helpers of the steering library, and the heading vector. */
module Angles {
  import opened Numeric
  import opened Vectors

  /**
   * mapToRange: shift an angle by a multiple of 2*PI, using JavaScript's
   * truncating `%`.  Only angles at or above -PI land in [-PI, PI).
   */
  function MapToRange(angle: real): real {
    JsRem(angle + PI, 2.0 * PI) - PI
  }

  /** For angle >= -PI the result lies in [-PI, PI); below -PI it stays at or below -PI. */
  lemma MapToRangeBounds(angle: real)
    ensures -PI <= angle ==> -PI <= MapToRange(angle) < PI
    ensures angle < -PI ==> -3.0 * PI < MapToRange(angle) <= -PI
  {}

  /** The result differs from the input by a whole number of turns. */
  lemma MapToRangeTurns(angle: real)
    ensures MapToRange(angle) == angle - 2.0 * PI * Trunc((angle + PI) / (2.0 * PI)) as real
  {}

  /** Angles already in [-PI, PI) are returned unchanged. */
  lemma MapToRangeFixed(angle: real)
    requires -PI <= angle < PI
    ensures MapToRange(angle) == angle
  {}

  /** Negative inputs are not brought into range: -4*PI maps to -2*PI. */
  lemma MapToRangeNotBoundedBelow()
    ensures MapToRange(-4.0 * PI) == -2.0 * PI
    ensures MapToRange(-4.0 * PI) < -PI
  {
    assert (-4.0 * PI + PI) / (2.0 * PI) == -1.5;
    assert Trunc(-1.5) == -1;
  }

  /**
   * newOrientation: the heading of a moving velocity, or the current
   * orientation when the velocity has no length.
   */
  function NewOrientation(current: real, velocity: Vec, m: MathLib): real {
    if velocity.Length(m) > 0.0 then m.atan2(velocity.y, velocity.x) else current
  }

  /** The orientation is kept exactly when the velocity is zero; otherwise it is the velocity's angle. */
  lemma NewOrientationCases(current: real, velocity: Vec, m: MathLib)
    requires m.Valid()
    ensures velocity == Zero ==> NewOrientation(current, velocity, m) == current
    ensures velocity != Zero ==> NewOrientation(current, velocity, m) == velocity.Angle(m)
  {
    LengthZero(m, velocity);
  }

  /** asVector: the unit heading (sin a, cos a), normalized. */
  function Facing(angle: real, m: MathLib): Vec {
    Vec(m.sin(angle), m.cos(angle)).Normalize(m)
  }

  /** The heading vector has length one. */
  lemma FacingUnit(angle: real, m: MathLib)
    requires m.Valid()
    ensures Facing(angle, m).Length(m) == 1.0
  {
    var h := Vec(m.sin(angle), m.cos(angle));
    assert h.LengthSquared() == 1.0;
    NormalizeUnit(m, h);
  }

  /** A heading scaled by k >= 0 has length k. */
  lemma FacingScaleLength(angle: real, k: real, m: MathLib)
    requires m.Valid() && 0.0 <= k
    ensures Facing(angle, m).Scale(k).Length(m) == k
  {
    FacingUnit(angle, m);
    UnitScaleLength(m, Facing(angle, m), k);
  }
}
