/**
 * Wander: Face toward a point that drifts around a circle held in front of
 * the character, while accelerating along the character's heading.
 */
module WanderBehavior {
  import opened Numeric
  import opened Options
  import opened Vectors
  import opened Angles
  import opened Steering
  import opened Agents
  import opened OrientationBehaviors

  /**
   * The wander target: wanderOffset ahead along the character's heading,
   * then wanderRadius out along the heading turned by wanderOrientation.
   */
  function WanderTargetPosition(
    characterPosition: Vec, characterOrientation: real, wanderOrientation: real,
    wanderOffset: real, wanderRadius: real, m: MathLib): Vec
  {
    var centre := characterPosition.Add(Facing(characterOrientation, m).Scale(wanderOffset));
    centre.Add(Facing(wanderOrientation + characterOrientation, m).Scale(wanderRadius))
  }

  /**
   * The wander target lies wanderRadius from the circle's centre, which lies
   * wanderOffset ahead of the character.
   */
  lemma WanderTargetOnCircle(
    characterPosition: Vec, characterOrientation: real, wanderOrientation: real,
    wanderOffset: real, wanderRadius: real, m: MathLib)
    requires m.Valid() && 0.0 <= wanderOffset && 0.0 <= wanderRadius
    ensures var centre := characterPosition.Add(Facing(characterOrientation, m).Scale(wanderOffset));
            && centre.Subtract(characterPosition).Length(m) == wanderOffset
            && WanderTargetPosition(characterPosition, characterOrientation, wanderOrientation,
                                    wanderOffset, wanderRadius, m).Subtract(centre).Length(m) == wanderRadius
  {
    var ahead := Facing(characterOrientation, m).Scale(wanderOffset);
    var out := Facing(wanderOrientation + characterOrientation, m).Scale(wanderRadius);
    var centre := characterPosition.Add(ahead);
    AddSubtract(characterPosition, ahead);
    assert centre.Subtract(characterPosition) == ahead;
    assert centre.Add(out).Subtract(centre) == out;
    FacingScaleLength(characterOrientation, wanderOffset, m);
    FacingScaleLength(wanderOrientation + characterOrientation, wanderRadius, m);
  }

  /**
   * What Wander returns: the Face result with its linear replaced by full
   * acceleration along the character's heading.  When Align inside Face
   * returns null, setting `linear` on it throws: a Failure.
   */
  function WanderSteering(faced: Option<Steering>, characterOrientation: real, maxAcceleration: real, m: MathLib)
    : Result<Steering>
  {
    if faced.None? then Failure("TypeError: cannot set property 'linear' of null")
    else Success(faced.value.(linear := Some(Facing(characterOrientation, m).Scale(maxAcceleration))))
  }

  /** A successful Wander accelerates at exactly maxAcceleration and keeps Face's other properties. */
  lemma WanderSteeringProperties(faced: Option<Steering>, characterOrientation: real, maxAcceleration: real, m: MathLib)
    requires m.Valid() && 0.0 <= maxAcceleration
    ensures var r := WanderSteering(faced, characterOrientation, maxAcceleration, m);
            && (r.Failure? <==> faced.None?)
            && (r.Success? ==>
                  && r.value.linear.Some? && r.value.linear.value.Length(m) == maxAcceleration
                  && r.value.angular == faced.value.angular
                  && r.value.velocity == faced.value.velocity
                  && r.value.rotation == faced.value.rotation)
  {
    FacingScaleLength(characterOrientation, maxAcceleration, m);
  }

  class Wander {
    const face: Face
    const wanderOffset: real
    const wanderRadius: real
    const wanderRate: real
    var wanderOrientation: real
    const maxAcceleration: real

    /** timeToTarget is accepted but, as for Face, the Align underneath gets 0.1. */
    constructor(
      character: Kinematic, target: Kinematic, maxAngularAcceleration: NonNeg, maxRotation: real,
      targetRadius: Positive, slowRadius: real, timeToTarget: real,
      wanderOffset: real, wanderRadius: real, wanderRate: real, wanderOrientation: real, maxAcceleration: real)
      ensures fresh(face) && fresh(face.align)
      ensures face.align.character == character && face.align.target == target
      ensures face.align.Parameters()
           == AlignParameters(maxAngularAcceleration, maxRotation, targetRadius, slowRadius, FaceTimeToTarget)
      ensures this.wanderOffset == wanderOffset && this.wanderRadius == wanderRadius
      ensures this.wanderRate == wanderRate && this.wanderOrientation == wanderOrientation
      ensures this.maxAcceleration == maxAcceleration
    {
      face := new Face(character, target, maxAngularAcceleration, maxRotation, targetRadius, slowRadius, timeToTarget);
      this.wanderOffset := wanderOffset;
      this.wanderRadius := wanderRadius;
      this.wanderRate := wanderRate;
      this.wanderOrientation := wanderOrientation;
      this.maxAcceleration := maxAcceleration;
    }

    /**
     * u1 and u2 are the two Math.random() draws.  Drifts wanderOrientation,
     * moves the current target to the new wander point, copies that point
     * to explicitTargetToSeek, and faces the target.
     */
    method GetSteering(u1: Uniform, u2: Uniform, explicitTarget: Kinematic, explicitTargetToSeek: Kinematic, m: MathLib)
      returns (r: Result<Steering>)
      requires face.align.target != face.align.character
      requires explicitTarget != face.align.character && explicitTargetToSeek != face.align.character
      modifies this`wanderOrientation, face.align.target`position, explicitTargetToSeek`position
      modifies face.align`target, explicitTarget`orientation
      ensures wanderOrientation == old(wanderOrientation) + RandomBinomial(u1, u2) * wanderRate
      ensures var point := WanderTargetPosition(
                             old(face.align.character.position), old(face.align.character.orientation),
                             wanderOrientation, wanderOffset, wanderRadius, m);
              && old(face.align.target).position == point
              && explicitTargetToSeek.position == point
              && r == WanderSteering(
                        FaceSteering(point, old(face.align.target.velocity), old(face.align.target.rotation),
                                     old(face.align.character.position), old(face.align.character.orientation),
                                     old(face.align.character.rotation), face.align.Parameters(), m),
                        old(face.align.character.orientation), maxAcceleration, m)
              && var direction := point.Subtract(old(face.align.character.position));
                 if direction.Length(m) == 0.0 then
                   face.align.target == old(face.align.target)
                   && explicitTarget.orientation == old(explicitTarget.orientation)
                 else
                   face.align.target == explicitTarget && explicitTarget.orientation == direction.Angle(m)
    {
      var random := RandomBinomial(u1, u2);
      wanderOrientation := wanderOrientation + random * wanderRate;
      var character := face.align.character;
      var targetOrientation := wanderOrientation + character.orientation;
      var newAsVector := Facing(character.orientation, m);
      face.align.target.position := character.position.Add(newAsVector.Scale(wanderOffset));
      newAsVector := Facing(targetOrientation, m);
      face.align.target.position := face.align.target.position.Add(newAsVector.Scale(wanderRadius));
      explicitTargetToSeek.position := face.align.target.position;
      var faced := face.GetSteering(explicitTarget, m);
      newAsVector := Facing(character.orientation, m);
      if faced.None? {
        return Failure("TypeError: cannot set property 'linear' of null");
      }
      r := Success(faced.value.(linear := Some(newAsVector.Scale(maxAcceleration))));
    }
  }
}
