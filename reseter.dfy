/**
 * `Reseter`: after every frame, if the player has left the cube of
 * half-width `Edge` around the origin, puts the player back at a fixed
 * position, at rest, upright, under the default gravity.
 */
module OutOfBoundsReset {
  import opened Geometry
  import opened Physics

  const DefaultEdge: real := 1000.0
  const GravityMagnitude: real := 981.0

  /** `Vector3.Abs(position).MaxValue > Edge`; with a negative `Edge` every position is out */
  function OutOfBounds(position: Vec3, edge: real): (out: bool)
    ensures edge < 0.0 ==> out
  {
    MaxValue(Abs(position)) > edge
  }

  /** The world after `Reset`: only the player's position, orientation and velocity and the gravity change */
  function ResetWorld(w: WorldState, resetPosition: Vec3): (r: WorldState)
    ensures r.player.translation == resetPosition && r.player.orientation == Identity
    ensures r.player.scale == w.player.scale
    ensures r.velocity == Zero && r.gravity == Vec3(0.0, -981.0, 0.0)
    ensures r.playerResets == w.playerResets
  {
    var player := w.player.(translation := resetPosition).(orientation := Identity);
    WorldState(player, Zero, Scale(GravityMagnitude, Down), w.playerResets)
  }

  /** A reset happens exactly when some coordinate is strictly further than `edge` from zero */
  lemma OutOfBoundsIff(position: Vec3, edge: real)
    ensures OutOfBounds(position, edge) <==>
      AbsReal(position.x) > edge || AbsReal(position.y) > edge || AbsReal(position.z) > edge
  {
  }

  /** Every position with all coordinates within `edge` of zero, the boundary included, is inside */
  lemma InsideIsNotOutOfBounds(position: Vec3, edge: real)
    requires AbsReal(position.x) <= edge && AbsReal(position.y) <= edge && AbsReal(position.z) <= edge
    ensures !OutOfBounds(position, edge)
  {
  }

  /** Resetting twice is the same as resetting once */
  lemma ResetIdempotent(w: WorldState, resetPosition: Vec3)
    ensures ResetWorld(ResetWorld(w, resetPosition), resetPosition) == ResetWorld(w, resetPosition)
  {
  }

  /** A reset position inside the bounds does not trigger another reset on the next frame */
  lemma ResetSettles(w: WorldState, resetPosition: Vec3, edge: real)
    requires !OutOfBounds(resetPosition, edge)
    ensures !OutOfBounds(ResetWorld(w, resetPosition).player.translation, edge)
  {
  }

  class Reseter {
    var edge: real
    var resetPosition: Vec3

    constructor ()
      ensures edge == DefaultEdge && resetPosition == Zero
    {
      edge := DefaultEdge;
      resetPosition := Zero;
    }

    /** `OnLateUpdate`: the bound check, run once per frame */
    method OnLateUpdate(world: World) returns (didReset: bool)
      modifies world
      ensures didReset <==> OutOfBounds(old(world.player.translation), edge)
      ensures world.State() == if didReset then ResetWorld(old(world.State()), resetPosition) else old(world.State())
    {
      var pos := Abs(world.player.translation);
      didReset := MaxValue(pos) > edge;
      if didReset {
        Reset(world);
      }
    }

    method Reset(world: World)
      modifies world
      ensures world.State() == ResetWorld(old(world.State()), resetPosition)
    {
      world.player := world.player.(translation := resetPosition);
      world.player := world.player.(orientation := Identity);
      world.gravity := Scale(GravityMagnitude, Down);
      world.velocity := Zero;
    }
  }
}
