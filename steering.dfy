/**
 * The steering records.  Behaviours return a SteeringOutput (linear and
 * angular acceleration) or a KinematicSteeringOutput (velocity and
 * rotation); Face may also hand back its target agent itself.  The
 * integrators read whichever of the four properties the object defines,
 * which Steering records as four optional fields.
 */
module Steering {
  import opened Options
  import opened Numeric
  import opened Vectors

  /** new SteeringOutput() defaults to a zero linear and a zero angular. */
  datatype SteeringOutput = SteeringOutput(linear: Vec, angular: real)

  /** new KinematicSteeringOutput() defaults to a zero velocity and a zero rotation. */
  datatype KinematicSteeringOutput = KinematicSteeringOutput(velocity: Vec, rotation: real)

  const NoSteering := SteeringOutput(Zero, 0.0)
  const NoKinematicSteering := KinematicSteeringOutput(Zero, 0.0)

  /** The properties an update method may find defined on the object it is given. */
  datatype Steering = Steering(
    linear: Option<Vec>,
    angular: Option<real>,
    velocity: Option<Vec>,
    rotation: Option<real>)

  /** A SteeringOutput defines linear and angular only. */
  function Dynamic(s: SteeringOutput): Steering {
    Steering(Some(s.linear), Some(s.angular), None, None)
  }

  /**
   * A KinematicSteeringOutput, and equally an agent object handed over as a
   * steering, defines velocity and rotation only.
   */
  function Direct(s: KinematicSteeringOutput): Steering {
    Steering(None, None, Some(s.velocity), Some(s.rotation))
  }

  /**
   * The change every arriving or matching behaviour asks for: cover
   * `direction` in timeToTarget, capped at `limit` by Clamp.
   */
  function Reach(direction: Vec, limit: real, timeToTarget: Positive, m: MathLib): Vec {
    Clamp(direction.Scale(1.0 / timeToTarget), limit, m)
  }

  /** The capped velocity is within limit and points along `direction`. */
  lemma ReachBound(direction: Vec, limit: real, timeToTarget: Positive, m: MathLib)
    requires m.Valid() && 0.0 <= limit
    ensures Reach(direction, limit, timeToTarget, m).Length(m) <= limit
    ensures 0.0 < limit ==>
              exists c: real :: 0.0 < c && Reach(direction, limit, timeToTarget, m) == direction.Scale(c)
  {
    var scaled := direction.Scale(1.0 / timeToTarget);
    ClampBound(m, scaled, limit);
    if 0.0 < limit {
      ClampDirection(m, scaled, limit);
      var c: real :| 0.0 < c <= 1.0 && Clamp(scaled, limit, m) == scaled.Scale(c);
      assert scaled.Scale(c) == direction.Scale((1.0 / timeToTarget) * c);
      var lo, hi := MulStrict(1.0 / timeToTarget, 0.0, c);
    }
  }

  /** When the limit allows it, the requested change covers `direction` in exactly timeToTarget. */
  lemma ReachExact(direction: Vec, limit: real, timeToTarget: Positive, m: MathLib)
    requires direction.Scale(1.0 / timeToTarget).Length(m) <= limit
    ensures Reach(direction, limit, timeToTarget, m).Scale(timeToTarget) == direction
  {
    var k := 1.0 / timeToTarget;
    assert k * timeToTarget == 1.0;
    assert (direction.x * k) * timeToTarget == direction.x * (k * timeToTarget);
    assert (direction.y * k) * timeToTarget == direction.y * (k * timeToTarget);
  }

  /**
   * The speed Arrive (for movement) and Align (for turning) aim for when
   * `distance` is left: `top` beyond slowRadius, proportionally less inside it.
   */
  function Ramp(distance: real, top: real, slowRadius: real): real
    requires 0.0 < distance
  {
    if distance > slowRadius then top else top * (distance / slowRadius)
  }

  /** Arrive writes the ramp as (top * distance) / slowRadius; it is the same number. */
  lemma RampProduct(distance: real, top: real, slowRadius: real)
    requires slowRadius != 0.0
    ensures top * distance / slowRadius == top * (distance / slowRadius)
  {}

  /** The ramped speed lies in [0, top], and equals top beyond slowRadius. */
  lemma RampBounds(distance: real, top: real, slowRadius: real)
    requires 0.0 < distance && 0.0 <= top
    ensures 0.0 <= Ramp(distance, top, slowRadius) <= top
    ensures distance > slowRadius ==> Ramp(distance, top, slowRadius) == top
  {
    if distance <= slowRadius {
      var f := distance / slowRadius;
      assert 0.0 < f <= 1.0;
      var lo, hi := MulMonotone(top, 0.0, f);
      var lo', hi' := MulMonotone(top, f, 1.0);
    }
  }

  /** The ramped speed grows with the distance. */
  lemma RampMonotone(d1: real, d2: real, top: real, slowRadius: real)
    requires 0.0 < d1 <= d2 && 0.0 <= top
    ensures Ramp(d1, top, slowRadius) <= Ramp(d2, top, slowRadius)
  {
    RampBounds(d1, top, slowRadius);
    if d2 <= slowRadius {
      var inv := 1.0 / slowRadius;
      var f1, f2 := MulMonotone(inv, d1, d2);
      var lo, hi := MulMonotone(top, f1, f2);
      assert d1 / slowRadius == f1 && d2 / slowRadius == f2;
    }
  }
}
