/**
 * The kinematic behaviours: they return a velocity and a rotation
 * (a KinematicSteeringOutput) rather than accelerations.
 */
module KinematicBehaviors {
  import opened Numeric
  import opened Options
  import opened Vectors
  import opened Angles
  import opened Steering
  import opened Agents

  // ---------------------------------------------------------------------
  // KinematicArrive

  function KinematicArriveSteering(
    characterPosition: Vec, targetPosition: Vec,
    maxSpeed: real, radius: real, timeToTarget: Positive, m: MathLib): Option<KinematicSteeringOutput>
  {
    var direction := targetPosition.Subtract(characterPosition);
    if direction.Length(m) < radius then None
    else Some(KinematicSteeringOutput(Reach(direction, maxSpeed, timeToTarget, m), 0.0))
  }

  /**
   * KinematicArrive gives up (null) exactly inside the radius; otherwise it
   * heads for the target at no more than maxSpeed and without rotation.
   */
  lemma KinematicArriveProperties(
    characterPosition: Vec, targetPosition: Vec,
    maxSpeed: real, radius: real, timeToTarget: Positive, m: MathLib)
    requires m.Valid() && 0.0 <= maxSpeed
    ensures var r := KinematicArriveSteering(characterPosition, targetPosition, maxSpeed, radius, timeToTarget, m);
            && (r.None? <==> targetPosition.Subtract(characterPosition).Length(m) < radius)
            && (r.Some? ==> r.value.velocity.Length(m) <= maxSpeed && r.value.rotation == 0.0)
            && (r.Some? && 0.0 < maxSpeed ==>
                  exists c: real :: 0.0 < c && r.value.velocity == targetPosition.Subtract(characterPosition).Scale(c))
  {
    ReachBound(targetPosition.Subtract(characterPosition), maxSpeed, timeToTarget, m);
  }

  class KinematicArrive {
    const character: Kinematic
    const target: Kinematic
    const maxSpeed: real
    const radius: real
    const timeToTarget: Positive

    constructor(character: Kinematic, target: Kinematic, maxSpeed: real, radius: real, timeToTarget: Positive := 0.75)
      ensures this.character == character && this.target == target
      ensures this.maxSpeed == maxSpeed && this.radius == radius && this.timeToTarget == timeToTarget
    {
      this.character := character;
      this.target := target;
      this.maxSpeed := maxSpeed;
      this.radius := radius;
      this.timeToTarget := timeToTarget;
    }

    /** Also turns the character toward the velocity it returns. */
    method GetSteering(m: MathLib) returns (r: Option<KinematicSteeringOutput>)
      modifies character`orientation
      ensures r == KinematicArriveSteering(old(character.position), old(target.position), maxSpeed, radius, timeToTarget, m)
      ensures r.None? ==> character.orientation == old(character.orientation)
      ensures r.Some? ==> character.orientation == NewOrientation(old(character.orientation), r.value.velocity, m)
    {
      var direction := target.position.Subtract(character.position);
      var distance := direction.Length(m);
      if distance < radius {
        return None;
      }
      var velocity := direction.Scale(1.0 / timeToTarget);
      if velocity.Length(m) > maxSpeed {
        velocity := velocity.Normalize(m).Scale(maxSpeed);
      }
      assert velocity == Reach(direction, maxSpeed, timeToTarget, m);
      character.orientation := NewOrientation(character.orientation, velocity, m);
      r := Some(KinematicSteeringOutput(velocity, 0.0));
    }
  }

  // ---------------------------------------------------------------------
  // KinematicFlee

  function KinematicFleeSteering(
    characterPosition: Vec, targetPosition: Vec,
    maxSpeed: real, radius: real, timeToTarget: Positive, m: MathLib): KinematicSteeringOutput
  {
    var direction := characterPosition.Subtract(targetPosition);
    if direction.Length(m) > radius then NoKinematicSteering
    else KinematicSteeringOutput(Reach(direction, maxSpeed, timeToTarget, m), 0.0)
  }

  /**
   * Beyond the radius KinematicFlee stands still; within it the character
   * moves directly away from the target at no more than maxSpeed.
   */
  lemma KinematicFleeProperties(
    characterPosition: Vec, targetPosition: Vec,
    maxSpeed: real, radius: real, timeToTarget: Positive, m: MathLib)
    requires m.Valid() && 0.0 <= maxSpeed
    ensures var r := KinematicFleeSteering(characterPosition, targetPosition, maxSpeed, radius, timeToTarget, m);
            var away := characterPosition.Subtract(targetPosition);
            && (away.Length(m) > radius ==> r.velocity == Zero)
            && r.velocity.Length(m) <= maxSpeed
            && r.rotation == 0.0
            && (away.Length(m) <= radius && 0.0 < maxSpeed ==> exists c: real :: 0.0 < c && r.velocity == away.Scale(c))
  {
    LengthOfZero(m);
    ReachBound(characterPosition.Subtract(targetPosition), maxSpeed, timeToTarget, m);
  }

  class KinematicFlee {
    const character: Kinematic
    const target: Kinematic
    const maxSpeed: real
    const radius: real
    const timeToTarget: Positive

    constructor(character: Kinematic, target: Kinematic, maxSpeed: real, radius: real, timeToTarget: Positive := 0.75)
      ensures this.character == character && this.target == target
      ensures this.maxSpeed == maxSpeed && this.radius == radius && this.timeToTarget == timeToTarget
    {
      this.character := character;
      this.target := target;
      this.maxSpeed := maxSpeed;
      this.radius := radius;
      this.timeToTarget := timeToTarget;
    }

    /** Turns the character toward its escape velocity, but not when it is already far enough. */
    method GetSteering(m: MathLib) returns (r: KinematicSteeringOutput)
      modifies character`orientation
      ensures r == KinematicFleeSteering(old(character.position), old(target.position), maxSpeed, radius, timeToTarget, m)
      ensures old(character.position).Subtract(old(target.position)).Length(m) > radius ==>
                character.orientation == old(character.orientation)
      ensures old(character.position).Subtract(old(target.position)).Length(m) <= radius ==>
                character.orientation == NewOrientation(old(character.orientation), r.velocity, m)
    {
      var direction := character.position.Subtract(target.position);
      var distance := direction.Length(m);
      if distance > radius {
        return KinematicSteeringOutput(Vec(0.0, 0.0), 0.0);
      }
      var velocity := direction.Scale(1.0 / timeToTarget);
      if velocity.Length(m) > maxSpeed {
        velocity := velocity.Normalize(m).Scale(maxSpeed);
      }
      assert velocity == Reach(direction, maxSpeed, timeToTarget, m);
      character.orientation := NewOrientation(character.orientation, velocity, m);
      r := KinematicSteeringOutput(velocity, 0.0);
    }
  }

  // ---------------------------------------------------------------------
  // KinematicWander

  function KinematicWanderSteering(
    orientation: real, u1: Uniform, u2: Uniform, maxSpeed: real, maxRotation: real, m: MathLib): KinematicSteeringOutput
  {
    KinematicSteeringOutput(Facing(orientation, m).Scale(maxSpeed), RandomBinomial(u1, u2) * maxRotation)
  }

  class KinematicWander {
    const character: Kinematic
    const maxSpeed: real
    const maxRotation: real

    constructor(character: Kinematic, maxSpeed: real, maxRotation: real)
      ensures this.character == character && this.maxSpeed == maxSpeed && this.maxRotation == maxRotation
    {
      this.character := character;
      this.maxSpeed := maxSpeed;
      this.maxRotation := maxRotation;
    }

    /**
     * Moves at full speed along the current heading and turns by a random
     * amount below maxRotation; u1 and u2 are the two Math.random() draws.
     */
    method GetSteering(u1: Uniform, u2: Uniform, m: MathLib) returns (r: KinematicSteeringOutput)
      ensures r == KinematicWanderSteering(character.orientation, u1, u2, maxSpeed, maxRotation, m)
      ensures m.Valid() && 0.0 <= maxSpeed ==> r.velocity.Length(m) == maxSpeed
      ensures Abs(r.rotation) <= Abs(maxRotation)
    {
      var heading := Facing(character.orientation, m);
      r := KinematicSteeringOutput(heading.Scale(maxSpeed), RandomBinomial(u1, u2) * maxRotation);
      if m.Valid() && 0.0 <= maxSpeed {
        FacingScaleLength(character.orientation, maxSpeed, m);
      }
      AbsFraction(RandomBinomial(u1, u2), maxRotation);
    }
  }
}
