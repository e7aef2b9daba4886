/**
 * Pursue and Evade: Seek and Flee aimed at where the explicit target will
 * be after a predicted time.
 */
module PredictiveBehaviors {
  import opened Numeric
  import opened Vectors
  import opened Angles
  import opened Steering
  import opened Agents
  import opened DynamicBehaviors

  /**
   * How far ahead to look: maxPrediction when the character is too slow to
   * cover the distance within it, otherwise the time it takes to cover it.
   */
  function PredictionTime(distance: real, speed: real, maxPrediction: Positive): (r: real)
    requires 0.0 <= distance && 0.0 <= speed
    ensures 0.0 <= r <= maxPrediction
    ensures r == maxPrediction || r * speed == distance
    ensures speed <= distance / maxPrediction <==> r == maxPrediction
  {
    if speed <= distance / maxPrediction then maxPrediction
    else
      var r := distance / speed;
      assert r < maxPrediction by {
        var lo, hi := MulStrict(maxPrediction, distance / maxPrediction, speed);
        assert lo == distance;
        var a, b := MulStrict(1.0 / speed, distance, maxPrediction * speed);
      }
      r
  }

  /** The prediction time from the character's position and velocity to the old target. */
  function Prediction(characterPosition: Vec, characterVelocity: Vec, targetPosition: Vec,
                      maxPrediction: Positive, m: MathLib): real
  {
    PredictionTime(targetPosition.Subtract(characterPosition).Length(m), characterVelocity.Length(m), maxPrediction)
  }

  /** Where an agent at `position` moving with `velocity` is after `prediction`. */
  function Predicted(position: Vec, velocity: Vec, prediction: real): Vec {
    position.Add(velocity.Scale(prediction))
  }

  /** With no prediction time the target is taken where it stands; a resting target stays put. */
  lemma PredictedStill(position: Vec, velocity: Vec, prediction: real)
    ensures Predicted(position, Zero, prediction) == position
    ensures Predicted(position, velocity, 0.0) == position
  {}

  class Pursue {
    const seek: Seek
    const maxPrediction: Positive

    constructor(character: Kinematic, target: Kinematic, maxAcceleration: real, maxPrediction: Positive)
      ensures fresh(seek)
      ensures seek.character == character && seek.target == target && seek.maxAcceleration == maxAcceleration
      ensures this.maxPrediction == maxPrediction
    {
      seek := new Seek(character, target, maxAcceleration);
      this.maxPrediction := maxPrediction;
    }

    /**
     * Measures the prediction against the current target, then retargets
     * to explicitTarget, moves it along its velocity by the prediction, and seeks it.
     */
    method GetSteering(explicitTarget: Kinematic, m: MathLib) returns (r: SteeringOutput)
      requires explicitTarget != seek.character
      modifies seek`target, explicitTarget`position, seek.character`orientation
      ensures seek.target == explicitTarget
      ensures explicitTarget.position
           == Predicted(old(explicitTarget.position), old(explicitTarget.velocity),
                        Prediction(old(seek.character.position), old(seek.character.velocity),
                                   old(seek.target.position), maxPrediction, m))
      ensures r == SteeringOutput(SeekLinear(old(seek.character.position), explicitTarget.position, seek.maxAcceleration, m), 0.0)
      ensures seek.character.orientation
           == NewOrientation(old(seek.character.orientation), old(seek.character.velocity), m)
    {
      var prediction;
      var direction := seek.target.position.Subtract(seek.character.position);
      var distance := direction.Length(m);
      var speed := seek.character.velocity.Length(m);
      if speed <= distance / maxPrediction {
        prediction := maxPrediction;
      } else {
        prediction := distance / speed;
      }
      seek.target := explicitTarget;
      seek.target.position := seek.target.position.Add(seek.target.velocity.Scale(prediction));
      r := seek.GetSteering(m);
    }
  }

  class Evade {
    const flee: Flee
    const maxPrediction: Positive

    constructor(character: Kinematic, target: Kinematic, maxAcceleration: real, maxPrediction: Positive)
      ensures fresh(flee)
      ensures flee.character == character && flee.target == target && flee.maxAcceleration == maxAcceleration
      ensures this.maxPrediction == maxPrediction
    {
      flee := new Flee(character, target, maxAcceleration);
      this.maxPrediction := maxPrediction;
    }

    /**
     * Measures the prediction against the current target, then retargets
     * to explicitTarget, moves it along its velocity by the prediction, and flees it.
     */
    method GetSteering(explicitTarget: Kinematic, m: MathLib) returns (r: SteeringOutput)
      requires explicitTarget != flee.character
      modifies flee`target, explicitTarget`position, flee.character`velocity, flee.character`orientation
      ensures flee.target == explicitTarget
      ensures explicitTarget.position
           == Predicted(old(explicitTarget.position), old(explicitTarget.velocity),
                        Prediction(old(flee.character.position), old(flee.character.velocity),
                                   old(flee.target.position), maxPrediction, m))
      ensures r == FleeSteering(old(flee.character.position), explicitTarget.position, flee.maxAcceleration, m)
      ensures old(flee.character.position).Subtract(explicitTarget.position).Length(m) > FleeRange ==>
                flee.character.velocity == Zero && flee.character.orientation == old(flee.character.orientation)
      ensures old(flee.character.position).Subtract(explicitTarget.position).Length(m) <= FleeRange ==>
                && flee.character.velocity == old(flee.character.velocity)
                && flee.character.orientation
                   == NewOrientation(old(flee.character.orientation), old(flee.character.velocity), m)
    {
      var prediction;
      var direction := flee.target.position.Subtract(flee.character.position);
      var distance := direction.Length(m);
      var speed := flee.character.velocity.Length(m);
      if speed <= distance / maxPrediction {
        prediction := maxPrediction;
      } else {
        prediction := distance / speed;
      }
      flee.target := explicitTarget;
      flee.target.position := flee.target.position.Add(flee.target.velocity.Scale(prediction));
      r := flee.GetSteering(m);
    }
  }
}
