/**
 * The moving agents.  Kinematic, KinematicForWander and
 * KinematicSteeringBehaviors have the same four fields and the same
 * constructor and differ only in their update step, so they are one class
 * with the three update methods.  Each method is specified by a function
 * on the agent's Motion snapshot.
 */
module Agents {
  import opened Numeric
  import opened Options
  import opened Vectors
  import opened Steering

  /** A snapshot of an agent's four mutable fields. */
  datatype Motion = Motion(position: Vec, orientation: real, velocity: Vec, rotation: real)

  /** The first two lines of every update: advance by the current velocity and rotation. */
  function Integrate(s: Motion, time: real): Motion {
    Motion(s.position.Add(s.velocity.Scale(time)), s.orientation + s.rotation * time, s.velocity, s.rotation)
  }

  /** Kinematic.update */
  function PlainStep(s: Motion, steering: Option<Steering>, time: real): Motion {
    var a := Integrate(s, time);
    var v1 :=
      if steering.Some? && steering.value.linear.Some?
      then a.velocity.Add(steering.value.linear.value.Scale(time))
      else a.velocity;
    var v2 := if steering.Some? && steering.value.velocity.Some? then steering.value.velocity.value else v1;
    var rot :=
      if steering.Some? && steering.value.angular.Some?
      then a.rotation + steering.value.angular.value * time
      else a.rotation;
    a.(velocity := v2, rotation := rot)
  }

  /** KinematicForWander.update */
  function WanderStep(s: Motion, steering: KinematicSteeringOutput, time: real): Motion {
    Integrate(s, time).(velocity := steering.velocity, rotation := steering.rotation)
  }

  /** KinematicSteeringBehaviors.update */
  function ClampedStep(s: Motion, steering: Option<Steering>, time: real, maxSpeed: real, m: MathLib): Motion {
    var a := Integrate(s, time);
    var v :=
      if steering.Some? && steering.value.linear.Some?
      then a.velocity.Add(steering.value.linear.value.Scale(time))
      else a.velocity;
    var rot :=
      if steering.Some? && steering.value.angular.Some?
      then a.rotation + steering.value.angular.value * time
      else a.rotation;
    a.(velocity := Clamp(v, maxSpeed, m), rotation := rot)
  }

  /** The same steering with its velocity and rotation properties removed. */
  function Accelerations(steering: Option<Steering>): Option<Steering> {
    if steering.None? then None else Some(steering.value.(velocity := None, rotation := None))
  }

  class Kinematic {
    var position: Vec
    var orientation: real
    var velocity: Vec
    var rotation: real

    /** new Kinematic(new Staticc(position, orientation), velocity, rotation) */
    constructor(position: Vec, orientation: real, velocity: Vec, rotation: real)
      ensures State() == Motion(position, orientation, velocity, rotation)
    {
      this.position := position;
      this.orientation := orientation;
      this.velocity := velocity;
      this.rotation := rotation;
    }

    function State(): Motion
      reads this
    {
      Motion(position, orientation, velocity, rotation)
    }

    method Update(steering: Option<Steering>, time: real)
      modifies this
      ensures State() == PlainStep(old(State()), steering, time)
    {
      position := position.Add(velocity.Scale(time));
      orientation := orientation + rotation * time;
      if steering.Some? && steering.value.linear.Some? {
        velocity := velocity.Add(steering.value.linear.value.Scale(time));
      }
      if steering.Some? && steering.value.velocity.Some? {
        velocity := steering.value.velocity.value;
      }
      if steering.Some? && steering.value.angular.Some? {
        rotation := rotation + steering.value.angular.value * time;
      }
    }

    method UpdateForWander(steering: KinematicSteeringOutput, time: real)
      modifies this
      ensures State() == WanderStep(old(State()), steering, time)
    {
      position := position.Add(velocity.Scale(time));
      orientation := orientation + rotation * time;
      velocity := steering.velocity;
      rotation := steering.rotation;
    }

    method UpdateSteeringBehaviors(steering: Option<Steering>, time: real, maxSpeed: real, m: MathLib)
      modifies this
      ensures State() == ClampedStep(old(State()), steering, time, maxSpeed, m)
      ensures m.Valid() && 0.0 <= maxSpeed ==> velocity.Length(m) <= maxSpeed
    {
      position := position.Add(velocity.Scale(time));
      orientation := orientation + rotation * time;
      if steering.Some? && steering.value.linear.Some? {
        velocity := velocity.Add(steering.value.linear.value.Scale(time));
      }
      if steering.Some? && steering.value.angular.Some? {
        rotation := rotation + steering.value.angular.value * time;
      }
      if velocity.Length(m) > maxSpeed {
        velocity := velocity.Normalize(m);
        velocity := velocity.Scale(maxSpeed);
      }
      if m.Valid() && 0.0 <= maxSpeed {
        ClampedSpeedBound(old(State()), steering, time, maxSpeed, m);
      }
    }
  }

  // ---------------------------------------------------------------------
  // Kinematic.update

  /** Position and orientation advance by the rates held BEFORE the update. */
  lemma PlainAdvancesWithOldRates(s: Motion, steering: Option<Steering>, time: real)
    ensures PlainStep(s, steering, time).position == s.position.Add(s.velocity.Scale(time))
    ensures PlainStep(s, steering, time).orientation == s.orientation + s.rotation * time
  {}

  /** A defined velocity overwrites the velocity, whatever linear acceleration came with it. */
  lemma PlainVelocityOverwrite(s: Motion, st: Steering, time: real)
    requires st.velocity.Some?
    ensures PlainStep(s, Some(st), time).velocity == st.velocity.value
    ensures PlainStep(s, Some(st), time) == PlainStep(s, Some(st.(linear := None)), time)
  {}

  /** Without a velocity, the linear acceleration is integrated over the time step. */
  lemma PlainLinear(s: Motion, st: Steering, time: real)
    requires st.velocity.None? && st.linear.Some?
    ensures PlainStep(s, Some(st), time).velocity == s.velocity.Add(st.linear.value.Scale(time))
  {}

  /** The rotation property of a steering is never read. */
  lemma PlainIgnoresRotation(s: Motion, st: Steering, k: KinematicSteeringOutput, time: real)
    ensures PlainStep(s, Some(st), time) == PlainStep(s, Some(st.(rotation := None)), time)
    ensures PlainStep(s, Some(Direct(k)), time).rotation == s.rotation
    ensures PlainStep(s, Some(Direct(k)), time).velocity == k.velocity
  {}

  /** A null steering changes only position and orientation. */
  lemma PlainNull(s: Motion, time: real)
    ensures PlainStep(s, None, time) == Integrate(s, time)
    ensures PlainStep(s, None, time).velocity == s.velocity
    ensures PlainStep(s, None, time).rotation == s.rotation
  {}

  // ---------------------------------------------------------------------
  // KinematicForWander.update

  /**
   * The wander update takes velocity and rotation wholesale, while the plain
   * update takes the velocity and ignores the rotation.
   */
  lemma WanderStepSetsRates(s: Motion, steering: KinematicSteeringOutput, time: real)
    ensures WanderStep(s, steering, time).velocity == steering.velocity
    ensures WanderStep(s, steering, time).rotation == steering.rotation
    ensures WanderStep(s, steering, time)
         == PlainStep(s, Some(Direct(steering)), time).(rotation := steering.rotation)
  {}

  // ---------------------------------------------------------------------
  // KinematicSteeringBehaviors.update

  /** With a non-negative speed limit, the speed after the update is within the limit. */
  lemma ClampedSpeedBound(s: Motion, steering: Option<Steering>, time: real, maxSpeed: real, m: MathLib)
    requires m.Valid() && 0.0 <= maxSpeed
    ensures ClampedStep(s, steering, time, maxSpeed, m).velocity.Length(m) <= maxSpeed
  {
    var p := PlainStep(s, Accelerations(steering), time);
    ClampBound(m, p.velocity, maxSpeed);
    ClampedIsPlainThenClamp(s, steering, time, maxSpeed, m);
  }

  /**
   * The clamped update is the plain update of the steering's accelerations
   * alone, followed by the speed clamp: its velocity and rotation are never applied.
   */
  lemma ClampedIsPlainThenClamp(s: Motion, steering: Option<Steering>, time: real, maxSpeed: real, m: MathLib)
    ensures var p := PlainStep(s, Accelerations(steering), time);
            ClampedStep(s, steering, time, maxSpeed, m) == p.(velocity := Clamp(p.velocity, maxSpeed, m))
  {}

  /** A velocity at or under the limit is left as integrated. */
  lemma ClampedKeepsSlow(s: Motion, steering: Option<Steering>, time: real, maxSpeed: real, m: MathLib)
    requires PlainStep(s, Accelerations(steering), time).velocity.Length(m) <= maxSpeed
    ensures ClampedStep(s, steering, time, maxSpeed, m) == PlainStep(s, Accelerations(steering), time)
  {}
}
