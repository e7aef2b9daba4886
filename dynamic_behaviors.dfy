/** The dynamic behaviours: they return accelerations (a SteeringOutput). */
module DynamicBehaviors {
  import opened Numeric
  import opened Options
  import opened Vectors
  import opened Angles
  import opened Steering
  import opened Agents

  // ---------------------------------------------------------------------
  // Seek

  /** Full acceleration toward the target. */
  function SeekLinear(characterPosition: Vec, targetPosition: Vec, maxAcceleration: real, m: MathLib): Vec {
    targetPosition.Subtract(characterPosition).Normalize(m).Scale(maxAcceleration)
  }

  /**
   * Seek accelerates at exactly maxAcceleration along the line to the
   * target, or not at all when the two positions coincide.
   */
  lemma SeekMagnitude(characterPosition: Vec, targetPosition: Vec, maxAcceleration: real, m: MathLib)
    requires m.Valid() && 0.0 <= maxAcceleration
    ensures var linear := SeekLinear(characterPosition, targetPosition, maxAcceleration, m);
            && (characterPosition != targetPosition ==> linear.Length(m) == maxAcceleration)
            && (characterPosition == targetPosition ==> linear == Zero)
  {
    DirectionScaleLength(m, characterPosition, targetPosition, maxAcceleration);
  }

  class Seek {
    const character: Kinematic
    var target: Kinematic
    const maxAcceleration: real

    constructor(character: Kinematic, target: Kinematic, maxAcceleration: real)
      ensures this.character == character && this.target == target && this.maxAcceleration == maxAcceleration
    {
      this.character := character;
      this.target := target;
      this.maxAcceleration := maxAcceleration;
    }

    /** Also turns the character toward its current velocity. */
    method GetSteering(m: MathLib) returns (r: SteeringOutput)
      modifies character`orientation
      ensures r == SteeringOutput(SeekLinear(old(character.position), old(target.position), maxAcceleration, m), 0.0)
      ensures character.orientation == NewOrientation(old(character.orientation), old(character.velocity), m)
    {
      var linear := target.position.Subtract(character.position);
      linear := linear.Normalize(m);
      linear := linear.Scale(maxAcceleration);
      r := SteeringOutput(linear, 0.0);
      character.orientation := NewOrientation(character.orientation, character.velocity, m);
    }
  }

  // ---------------------------------------------------------------------
  // Flee

  /** Flee stops fleeing beyond this distance. */
  const FleeRange: real := 300.0

  function FleeSteering(characterPosition: Vec, targetPosition: Vec, maxAcceleration: real, m: MathLib): SteeringOutput {
    var away := characterPosition.Subtract(targetPosition);
    if away.Length(m) > FleeRange then NoSteering
    else SteeringOutput(away.Normalize(m).Scale(maxAcceleration), 0.0)
  }

  /**
   * Beyond FleeRange Flee asks for nothing; within it, it asks for exactly
   * the opposite of what Seek asks for.
   */
  lemma FleeOpposesSeek(characterPosition: Vec, targetPosition: Vec, maxAcceleration: real, m: MathLib)
    requires m.Valid()
    ensures var r := FleeSteering(characterPosition, targetPosition, maxAcceleration, m);
            var distance := characterPosition.Subtract(targetPosition).Length(m);
            && r.angular == 0.0
            && (distance > FleeRange ==> r.linear == Zero)
            && (distance <= FleeRange ==>
                  r.linear == SeekLinear(characterPosition, targetPosition, maxAcceleration, m).Scale(-1.0))
  {
    var toward := targetPosition.Subtract(characterPosition);
    var away := characterPosition.Subtract(targetPosition);
    assert away == toward.Scale(-1.0);
    NormalizeNegate(m, toward);
    ScaleNegate(toward.Normalize(m), maxAcceleration);
  }

  /** Within range Flee accelerates at exactly maxAcceleration, unless the positions coincide. */
  lemma FleeMagnitude(characterPosition: Vec, targetPosition: Vec, maxAcceleration: real, m: MathLib)
    requires m.Valid() && 0.0 <= maxAcceleration
    requires characterPosition.Subtract(targetPosition).Length(m) <= FleeRange
    ensures var linear := FleeSteering(characterPosition, targetPosition, maxAcceleration, m).linear;
            && (characterPosition != targetPosition ==> linear.Length(m) == maxAcceleration)
            && (characterPosition == targetPosition ==> linear == Zero)
  {
    DirectionScaleLength(m, targetPosition, characterPosition, maxAcceleration);
  }

  class Flee {
    const character: Kinematic
    var target: Kinematic
    const maxAcceleration: real

    constructor(character: Kinematic, target: Kinematic, maxAcceleration: real)
      ensures this.character == character && this.target == target && this.maxAcceleration == maxAcceleration
    {
      this.character := character;
      this.target := target;
      this.maxAcceleration := maxAcceleration;
    }

    /**
     * Beyond FleeRange also stops the character dead; within it, turns the
     * character toward its current velocity.
     */
    method GetSteering(m: MathLib) returns (r: SteeringOutput)
      modifies character`velocity, character`orientation
      ensures r == FleeSteering(old(character.position), old(target.position), maxAcceleration, m)
      ensures old(character.position.Subtract(target.position).Length(m)) > FleeRange ==>
                character.velocity == Zero && character.orientation == old(character.orientation)
      ensures old(character.position.Subtract(target.position).Length(m)) <= FleeRange ==>
                && character.velocity == old(character.velocity)
                && character.orientation == NewOrientation(old(character.orientation), old(character.velocity), m)
    {
      var linear := character.position.Subtract(target.position);
      var distance := linear.Length(m);
      if distance > FleeRange {
        character.velocity := Vec(0.0, 0.0);
        return SteeringOutput(Vec(0.0, 0.0), 0.0);
      }
      linear := linear.Normalize(m);
      linear := linear.Scale(maxAcceleration);
      character.orientation := NewOrientation(character.orientation, character.velocity, m);
      r := SteeringOutput(linear, 0.0);
    }
  }

  // ---------------------------------------------------------------------
  // Arrive

  /** The velocity Arrive wants to have: along the direction, at the target speed. */
  function ArriveTargetVelocity(direction: Vec, maxSpeed: real, slowRadius: real, m: MathLib): Vec
    requires 0.0 < direction.Length(m)
  {
    direction.Normalize(m).Scale(Ramp(direction.Length(m), maxSpeed, slowRadius))
  }

  function ArriveSteering(
    characterPosition: Vec, characterVelocity: Vec, targetPosition: Vec,
    maxAcceleration: real, maxSpeed: real, targetRadius: Positive, slowRadius: real,
    timeToTarget: Positive, m: MathLib): Option<SteeringOutput>
  {
    var direction := targetPosition.Subtract(characterPosition);
    if direction.Length(m) < targetRadius then None
    else
      var targetVelocity := ArriveTargetVelocity(direction, maxSpeed, slowRadius, m);
      Some(SteeringOutput(Reach(targetVelocity.Subtract(characterVelocity), maxAcceleration, timeToTarget, m), 0.0))
  }

  /**
   * Arrive gives up (null) exactly inside targetRadius.  Otherwise it wants
   * a velocity of length equal to the target speed, and asks for at most
   * maxAcceleration to get there.
   */
  lemma ArriveProperties(
    characterPosition: Vec, characterVelocity: Vec, targetPosition: Vec,
    maxAcceleration: real, maxSpeed: real, targetRadius: Positive, slowRadius: real,
    timeToTarget: Positive, m: MathLib)
    requires m.Valid() && 0.0 <= maxAcceleration && 0.0 <= maxSpeed
    ensures var direction := targetPosition.Subtract(characterPosition);
            var r := ArriveSteering(characterPosition, characterVelocity, targetPosition,
                                    maxAcceleration, maxSpeed, targetRadius, slowRadius, timeToTarget, m);
            && (r.None? <==> direction.Length(m) < targetRadius)
            && (r.Some? ==> r.value.linear.Length(m) <= maxAcceleration && r.value.angular == 0.0)
            && (r.Some? ==>
                  ArriveTargetVelocity(direction, maxSpeed, slowRadius, m).Length(m)
                  == Ramp(direction.Length(m), maxSpeed, slowRadius) <= maxSpeed)
            && (r.Some? && 0.0 < maxAcceleration ==>
                  exists c: real :: 0.0 < c && r.value.linear
                    == ArriveTargetVelocity(direction, maxSpeed, slowRadius, m).Subtract(characterVelocity).Scale(c))
  {
    var direction := targetPosition.Subtract(characterPosition);
    if targetRadius <= direction.Length(m) {
      var speed := Ramp(direction.Length(m), maxSpeed, slowRadius);
      RampBounds(direction.Length(m), maxSpeed, slowRadius);
      LengthOfZero(m);
      NormalizeScaleLength(m, direction, speed);
      var targetVelocity := ArriveTargetVelocity(direction, maxSpeed, slowRadius, m);
      ReachBound(targetVelocity.Subtract(characterVelocity), maxAcceleration, timeToTarget, m);
    }
  }

  class Arrive {
    const character: Kinematic
    const target: Kinematic
    const maxAcceleration: real
    const maxSpeed: real
    const targetRadius: Positive
    const slowRadius: real
    const timeToTarget: Positive

    constructor(
      character: Kinematic, target: Kinematic, maxAcceleration: real, maxSpeed: real,
      targetRadius: Positive, slowRadius: real, timeToTarget: Positive := 0.1)
      ensures this.character == character && this.target == target
      ensures this.maxAcceleration == maxAcceleration && this.maxSpeed == maxSpeed
      ensures this.targetRadius == targetRadius && this.slowRadius == slowRadius
      ensures this.timeToTarget == timeToTarget
    {
      this.character := character;
      this.target := target;
      this.maxAcceleration := maxAcceleration;
      this.maxSpeed := maxSpeed;
      this.targetRadius := targetRadius;
      this.slowRadius := slowRadius;
      this.timeToTarget := timeToTarget;
    }

    /** Unless it returns null, also turns the character toward its current velocity. */
    method GetSteering(m: MathLib) returns (r: Option<SteeringOutput>)
      modifies character`orientation
      ensures r == ArriveSteering(old(character.position), old(character.velocity), old(target.position),
                                  maxAcceleration, maxSpeed, targetRadius, slowRadius, timeToTarget, m)
      ensures r.None? ==> character.orientation == old(character.orientation)
      ensures r.Some? ==> character.orientation == NewOrientation(old(character.orientation), old(character.velocity), m)
    {
      var direction := target.position.Subtract(character.position);
      var distance := direction.Length(m);
      if distance < targetRadius {
        return None;
      }
      assert 0.0 < distance;
      var targetSpeed;
      if distance > slowRadius {
        targetSpeed := maxSpeed;
      } else {
        targetSpeed := maxSpeed * distance / slowRadius;
        RampProduct(distance, maxSpeed, slowRadius);
      }
      assert targetSpeed == Ramp(distance, maxSpeed, slowRadius);
      var unit := direction.Normalize(m);
      var targetVelocity := unit.Scale(targetSpeed);
      assert targetVelocity == ArriveTargetVelocity(direction, maxSpeed, slowRadius, m);
      var linear := targetVelocity.Subtract(character.velocity);
      linear := linear.Scale(1.0 / timeToTarget);
      if linear.Length(m) > maxAcceleration {
        linear := linear.Normalize(m);
        linear := linear.Scale(maxAcceleration);
      }
      assert linear == Reach(targetVelocity.Subtract(character.velocity), maxAcceleration, timeToTarget, m);
      character.orientation := NewOrientation(character.orientation, character.velocity, m);
      r := Some(SteeringOutput(linear, 0.0));
    }
  }

  // ---------------------------------------------------------------------
  // VelocityMatch

  class VelocityMatch {
    const character: Kinematic
    const target: Kinematic
    const maxAcceleration: real
    const timeToTarget: Positive

    constructor(character: Kinematic, target: Kinematic, maxAcceleration: real, timeToTarget: Positive := 0.1)
      ensures this.character == character && this.target == target
      ensures this.maxAcceleration == maxAcceleration && this.timeToTarget == timeToTarget
    {
      this.character := character;
      this.target := target;
      this.maxAcceleration := maxAcceleration;
      this.timeToTarget := timeToTarget;
    }

    /**
     * Asks for at most maxAcceleration; when that suffices, the acceleration
     * brings the character to the target's velocity in exactly timeToTarget.
     */
    method GetSteering(m: MathLib) returns (r: SteeringOutput)
      ensures r == SteeringOutput(Reach(target.velocity.Subtract(character.velocity), maxAcceleration, timeToTarget, m), 0.0)
      ensures m.Valid() && 0.0 <= maxAcceleration ==> r.linear.Length(m) <= maxAcceleration
      ensures target.velocity.Subtract(character.velocity).Scale(1.0 / timeToTarget).Length(m) <= maxAcceleration ==>
                character.velocity.Add(r.linear.Scale(timeToTarget)) == target.velocity
    {
      var linear := target.velocity.Subtract(character.velocity);
      linear := linear.Scale(1.0 / timeToTarget);
      if linear.Length(m) > maxAcceleration {
        linear := linear.Normalize(m);
        linear := linear.Scale(maxAcceleration);
      }
      r := SteeringOutput(linear, 0.0);
      var gap := target.velocity.Subtract(character.velocity);
      if m.Valid() && 0.0 <= maxAcceleration {
        ReachBound(gap, maxAcceleration, timeToTarget, m);
      }
      if gap.Scale(1.0 / timeToTarget).Length(m) <= maxAcceleration {
        ReachExact(gap, maxAcceleration, timeToTarget, m);
        AddSubtract(target.velocity, character.velocity);
      }
    }
  }
}
