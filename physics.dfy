/**
 * The part of the game world the level scripts read and overwrite: the
 * transform and linear velocity of the actor named "Player", and the
 * global gravity vector `Physics.Gravity`.
 */
module Physics {
  import opened Geometry

  /**
   * A snapshot of the world. `playerResets` counts the calls made to the
   * player script's own `Reset`, whose effect is outside this model.
   */
  datatype WorldState = WorldState(player: Transform, velocity: Vec3, gravity: Vec3, playerResets: nat)

  /** The world as the scripts see it: engine state that is updated in place. */
  class World {
    var player: Transform
    var velocity: Vec3
    var gravity: Vec3
    var playerResets: nat

    function State(): WorldState
      reads this
    {
      WorldState(player, velocity, gravity, playerResets)
    }

    constructor (s: WorldState)
      ensures State() == s
    {
      player, velocity, gravity, playerResets := s.player, s.velocity, s.gravity, s.playerResets;
    }
  }
}
