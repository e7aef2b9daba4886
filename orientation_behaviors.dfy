/** Align turns the character to the target's orientation; Face, built on it, turns it toward the target. */
module OrientationBehaviors {
  import opened Numeric
  import opened Options
  import opened Vectors
  import opened Angles
  import opened Steering
  import opened Agents

  /** The tuning of an Align (and so of a Face). */
  datatype AlignParameters = AlignParameters(
    maxAngularAcceleration: NonNeg,
    maxRotation: real,
    targetRadius: Positive,
    slowRadius: real,
    timeToTarget: Positive)

  /** A scalar longer than `limit` is replaced by its sign times `limit`. */
  function CapMagnitude(a: real, limit: NonNeg): real {
    if Abs(a) > limit then a / Abs(a) * limit else a
  }

  /** A non-zero number divided by its size is its sign. */
  lemma SignOf(a: real)
    requires a != 0.0
    ensures 0.0 < a ==> a / Abs(a) == 1.0
    ensures a < 0.0 ==> a / Abs(a) == -1.0
  {}

  /** The capped value is within the limit, equal to the input when that already is, and of the same sign. */
  lemma CapMagnitudeBounds(a: real, limit: NonNeg)
    ensures Abs(CapMagnitude(a, limit)) <= limit
    ensures Abs(a) <= limit ==> CapMagnitude(a, limit) == a
    ensures Abs(a) > limit ==> Abs(CapMagnitude(a, limit)) == limit
    ensures 0.0 <= a ==> 0.0 <= CapMagnitude(a, limit)
    ensures a <= 0.0 ==> CapMagnitude(a, limit) <= 0.0
  {
    if Abs(a) > limit {
      SignOf(a);
    }
  }

  /**
   * The rotation speed Align aims for, for a remaining turn of `rotation`:
   * the ramped speed, in the direction of the turn.
   */
  function AlignTargetRotation(rotation: real, maxRotation: real, slowRadius: real): real
    requires rotation != 0.0
  {
    var rotationSize := Abs(rotation);
    Ramp(rotationSize, maxRotation, slowRadius) * (rotation / rotationSize)
  }

  /** The target rotation never exceeds maxRotation in size and turns the way the remaining turn goes. */
  lemma AlignTargetRotationBounds(rotation: real, maxRotation: real, slowRadius: real)
    requires rotation != 0.0 && 0.0 <= maxRotation
    ensures Abs(AlignTargetRotation(rotation, maxRotation, slowRadius)) <= maxRotation
    ensures 0.0 < rotation ==> 0.0 <= AlignTargetRotation(rotation, maxRotation, slowRadius)
    ensures rotation < 0.0 ==> AlignTargetRotation(rotation, maxRotation, slowRadius) <= 0.0
    ensures Abs(rotation) > slowRadius ==> Abs(AlignTargetRotation(rotation, maxRotation, slowRadius)) == maxRotation
  {
    var speed := Ramp(Abs(rotation), maxRotation, slowRadius);
    RampBounds(Abs(rotation), maxRotation, slowRadius);
    SignOf(rotation);
  }

  function AlignSteering(
    targetOrientation: real, characterOrientation: real, characterRotation: real,
    p: AlignParameters): Option<SteeringOutput>
  {
    var rotation := MapToRange(targetOrientation - characterOrientation);
    if Abs(rotation) < p.targetRadius then None
    else
      var targetRotation := AlignTargetRotation(rotation, p.maxRotation, p.slowRadius);
      var angular := (targetRotation - characterRotation) / p.timeToTarget;
      Some(SteeringOutput(Zero, CapMagnitude(angular, p.maxAngularAcceleration)))
  }

  /**
   * Align gives up (null) exactly when the remaining turn, brought into
   * range, is smaller than targetRadius; otherwise it asks for no linear
   * acceleration and an angular one of at most maxAngularAcceleration.
   */
  lemma AlignProperties(targetOrientation: real, characterOrientation: real, characterRotation: real, p: AlignParameters)
    ensures var r := AlignSteering(targetOrientation, characterOrientation, characterRotation, p);
            && (r.None? <==> Abs(MapToRange(targetOrientation - characterOrientation)) < p.targetRadius)
            && (r.Some? ==> r.value.linear == Zero && Abs(r.value.angular) <= p.maxAngularAcceleration)
  {
    var rotation := MapToRange(targetOrientation - characterOrientation);
    if p.targetRadius <= Abs(rotation) {
      var targetRotation := AlignTargetRotation(rotation, p.maxRotation, p.slowRadius);
      CapMagnitudeBounds((targetRotation - characterRotation) / p.timeToTarget, p.maxAngularAcceleration);
    }
  }

  /** Already facing the target's orientation, Align returns null. */
  lemma AlignAligned(orientation: real, characterRotation: real, p: AlignParameters)
    ensures AlignSteering(orientation, orientation, characterRotation, p).None?
  {
    MapToRangeFixed(0.0);
  }

  /**
   * Orientations are never wrapped and mapToRange does not bring angles
   * below -PI into range, so an orientation of 2*PI facing a target at 0,
   * the same heading, still asks for a turn.
   */
  lemma AlignFullTurn(p: AlignParameters)
    requires p.targetRadius <= 2.0 * PI
    ensures MapToRange(0.0 - 2.0 * PI) == -2.0 * PI
    ensures AlignSteering(0.0, 2.0 * PI, 0.0, p).Some?
  {
    assert (0.0 - 2.0 * PI + PI) / (2.0 * PI) == -0.5;
    assert Trunc(-0.5) == 0;
  }

  /**
   * Not yet turning and within the acceleration limit, Align asks for the
   * target rotation to be reached in exactly timeToTarget.
   */
  lemma AlignReachesTargetRotation(targetOrientation: real, characterOrientation: real, p: AlignParameters)
    requires var r := AlignSteering(targetOrientation, characterOrientation, 0.0, p);
             r.Some?
    requires var rotation := MapToRange(targetOrientation - characterOrientation);
             Abs(AlignTargetRotation(rotation, p.maxRotation, p.slowRadius) / p.timeToTarget) <= p.maxAngularAcceleration
    ensures var rotation := MapToRange(targetOrientation - characterOrientation);
            AlignSteering(targetOrientation, characterOrientation, 0.0, p).value.angular * p.timeToTarget
            == AlignTargetRotation(rotation, p.maxRotation, p.slowRadius)
  {
    var rotation := MapToRange(targetOrientation - characterOrientation);
    var targetRotation := AlignTargetRotation(rotation, p.maxRotation, p.slowRadius);
    CapMagnitudeBounds((targetRotation - 0.0) / p.timeToTarget, p.maxAngularAcceleration);
  }

  class Align {
    const character: Kinematic
    var target: Kinematic
    const maxAngularAcceleration: NonNeg
    const maxRotation: real
    const targetRadius: Positive
    const slowRadius: real
    const timeToTarget: Positive

    constructor(
      character: Kinematic, target: Kinematic, maxAngularAcceleration: NonNeg, maxRotation: real,
      targetRadius: Positive, slowRadius: real, timeToTarget: Positive := 0.1)
      ensures this.character == character && this.target == target
      ensures Parameters() == AlignParameters(maxAngularAcceleration, maxRotation, targetRadius, slowRadius, timeToTarget)
    {
      this.character := character;
      this.target := target;
      this.maxAngularAcceleration := maxAngularAcceleration;
      this.maxRotation := maxRotation;
      this.targetRadius := targetRadius;
      this.slowRadius := slowRadius;
      this.timeToTarget := timeToTarget;
    }

    function Parameters(): AlignParameters {
      AlignParameters(maxAngularAcceleration, maxRotation, targetRadius, slowRadius, timeToTarget)
    }

    method GetSteering() returns (r: Option<SteeringOutput>)
      ensures r == AlignSteering(target.orientation, character.orientation, character.rotation, Parameters())
      ensures r.None? <==> Abs(MapToRange(target.orientation - character.orientation)) < targetRadius
      ensures r.Some? ==> r.value.linear == Zero && Abs(r.value.angular) <= maxAngularAcceleration
    {
      var rotation := target.orientation - character.orientation;
      rotation := MapToRange(rotation);
      var rotationSize := Abs(rotation);
      if rotationSize < targetRadius {
        return None;
      }
      var targetRotation := AlignTargetRotation(rotation, maxRotation, slowRadius);
      var angular := targetRotation - character.rotation;
      angular := angular / timeToTarget;
      angular := CapMagnitude(angular, maxAngularAcceleration);
      r := Some(SteeringOutput(Vec(0.0, 0.0), angular));
      AlignProperties(target.orientation, character.orientation, character.rotation, Parameters());
    }
  }

  // ---------------------------------------------------------------------
  // Face

  /** Face passes this value up to Align whatever timeToTarget it is given. */
  const FaceTimeToTarget: Positive := 0.1

  /**
   * Face: an agent at the very position of the character is handed back
   * itself (as a steering with only velocity and rotation); otherwise the
   * character aligns with the direction toward the target.
   */
  function FaceSteering(
    targetPosition: Vec, targetVelocity: Vec, targetRotation: real,
    characterPosition: Vec, characterOrientation: real, characterRotation: real,
    p: AlignParameters, m: MathLib): Option<Steering>
  {
    var direction := targetPosition.Subtract(characterPosition);
    if direction.Length(m) == 0.0 then Some(Direct(KinematicSteeringOutput(targetVelocity, targetRotation)))
    else
      match AlignSteering(direction.Angle(m), characterOrientation, characterRotation, p)
      case None => None
      case Some(o) => Some(Dynamic(o))
  }

  /**
   * Face returns its target exactly when target and character share a
   * position.  Otherwise it returns null or an Align result with zero
   * linear and angular of at most maxAngularAcceleration, and when the
   * character already faces the target it returns null.
   */
  lemma FaceProperties(
    targetPosition: Vec, targetVelocity: Vec, targetRotation: real,
    characterPosition: Vec, characterOrientation: real, characterRotation: real,
    p: AlignParameters, m: MathLib)
    requires m.Valid()
    ensures var r := FaceSteering(targetPosition, targetVelocity, targetRotation,
                                  characterPosition, characterOrientation, characterRotation, p, m);
            var direction := targetPosition.Subtract(characterPosition);
            && (targetPosition == characterPosition ==>
                  r == Some(Direct(KinematicSteeringOutput(targetVelocity, targetRotation))))
            && (targetPosition != characterPosition && r.Some? ==>
                  && r.value.linear == Some(Zero) && r.value.velocity.None?
                  && r.value.angular.Some? && Abs(r.value.angular.value) <= p.maxAngularAcceleration)
            && (targetPosition != characterPosition && characterOrientation == direction.Angle(m) ==> r.None?)
  {
    var direction := targetPosition.Subtract(characterPosition);
    LengthZero(m, direction);
    assert direction == Zero <==> targetPosition == characterPosition;
    AlignProperties(direction.Angle(m), characterOrientation, characterRotation, p);
    if characterOrientation == direction.Angle(m) {
      AlignAligned(characterOrientation, characterRotation, p);
    }
  }

  class Face {
    const align: Align

    /** Whatever timeToTarget is passed, the Align underneath gets 0.1. */
    constructor(
      character: Kinematic, target: Kinematic, maxAngularAcceleration: NonNeg, maxRotation: real,
      targetRadius: Positive, slowRadius: real, timeToTarget: real := 0.1)
      ensures fresh(align)
      ensures align.character == character && align.target == target
      ensures align.Parameters()
           == AlignParameters(maxAngularAcceleration, maxRotation, targetRadius, slowRadius, FaceTimeToTarget)
    {
      align := new Align(character, target, maxAngularAcceleration, maxRotation, targetRadius, slowRadius, FaceTimeToTarget);
    }

    /**
     * Unless the target sits on the character, retargets to explicitTarget
     * and points its orientation along the direction that was measured to
     * the previous target, then aligns with it.
     */
    method GetSteering(explicitTarget: Kinematic, m: MathLib) returns (r: Option<Steering>)
      requires explicitTarget != align.character
      modifies align`target, explicitTarget`orientation
      ensures r == FaceSteering(
                     old(align.target.position), old(align.target.velocity), old(align.target.rotation),
                     old(align.character.position), old(align.character.orientation), old(align.character.rotation),
                     align.Parameters(), m)
      ensures var direction := old(align.target.position.Subtract(align.character.position));
              if direction.Length(m) == 0.0 then
                align.target == old(align.target) && explicitTarget.orientation == old(explicitTarget.orientation)
              else
                align.target == explicitTarget && explicitTarget.orientation == direction.Angle(m)
    {
      var direction := align.target.position.Subtract(align.character.position);
      if direction.Length(m) == 0.0 {
        return Some(Direct(KinematicSteeringOutput(align.target.velocity, align.target.rotation)));
      }
      align.target := explicitTarget;
      align.target.orientation := m.atan2(direction.y, direction.x);
      var aligned := align.GetSteering();
      r := if aligned.None? then None else Some(Dynamic(aligned.value));
    }
  }
}
