/** The boundary policy of the fixed 1200 x 800 world. */
module Boundary {
  import opened Vectors
  import opened Agents

  const WorldWidth: real := 1200.0
  const WorldHeight: real := 800.0

  predicate InWorld(p: Vec) {
    0.0 <= p.x <= WorldWidth && 0.0 <= p.y <= WorldHeight
  }

  /** One axis of the toroidal wrap: below zero goes to the far edge, beyond it to zero. */
  function WrapAxis(c: real, size: real): (r: real)
    requires 0.0 <= size
    ensures 0.0 <= r <= size
    ensures 0.0 <= c <= size ==> r == c
    ensures c < 0.0 ==> r == size
    ensures c > size ==> r == 0.0
  {
    if c < 0.0 then size else if c > size then 0.0 else c
  }

  /** Where wrapAround puts a position. */
  function Wrapped(p: Vec, transportToCenter: bool): (r: Vec)
    ensures InWorld(r)
    ensures InWorld(p) ==> r == p
    ensures transportToCenter && !InWorld(p) ==> r == Vec(600.0, 400.0)
    ensures !transportToCenter ==> r.x == WrapAxis(p.x, WorldWidth) && r.y == WrapAxis(p.y, WorldHeight)
  {
    if transportToCenter then
      if !InWorld(p) then Vec(WorldWidth / 2.0, WorldHeight / 2.0) else p
    else
      Vec(WrapAxis(p.x, WorldWidth), WrapAxis(p.y, WorldHeight))
  }

  /** A second wrap changes nothing, under either policy. */
  lemma WrappedIdempotent(p: Vec, transportToCenter: bool)
    ensures Wrapped(Wrapped(p, transportToCenter), transportToCenter) == Wrapped(p, transportToCenter)
  {}

  /** wrapAround: only the agent's position changes. */
  method WrapAround(kinematic: Kinematic, transportToCenter: bool := false)
    modifies kinematic`position
    ensures kinematic.position == Wrapped(old(kinematic.position), transportToCenter)
    ensures InWorld(kinematic.position)
  {
    if transportToCenter {
      if kinematic.position.x < 0.0 || kinematic.position.x > WorldWidth
         || kinematic.position.y < 0.0 || kinematic.position.y > WorldHeight
      {
        kinematic.position := kinematic.position.(x := WorldWidth / 2.0);
        kinematic.position := kinematic.position.(y := WorldHeight / 2.0);
      }
    } else {
      if kinematic.position.x < 0.0 {
        kinematic.position := kinematic.position.(x := WorldWidth);
      } else if kinematic.position.x > WorldWidth {
        kinematic.position := kinematic.position.(x := 0.0);
      }
      if kinematic.position.y < 0.0 {
        kinematic.position := kinematic.position.(y := WorldHeight);
      } else if kinematic.position.y > WorldHeight {
        kinematic.position := kinematic.position.(y := 0.0);
      }
    }
  }
}
