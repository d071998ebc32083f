/** `KillingObstacle`: the player touching it loads the current checkpoint. */
module KillingObstacles {
  import opened Wrappers
  import opened Physics
  import opened Level
  import Checkpoints

  /** The trigger-enter handler: it never changes the level state */
  function Entered(s: LevelState, layer: Layer): (r: Reaction)
    ensures r.state == s
    ensures layer == PlayerLayer ==> r.effect == LoadCurrent(s)
    ensures layer != PlayerLayer ==> r.effect == NoEffect
  {
    Reaction(s, if layer == PlayerLayer then LoadCurrent(s) else NoEffect)
  }

  method OnTriggerEnter(level: Level, world: World, layer: Layer) returns (fault: Option<Fault>)
    modifies world
    ensures level.State() == Entered(old(level.State()), layer).state
    ensures world.State() == Checkpoints.Apply(old(world.State()), Entered(old(level.State()), layer).effect)
    ensures fault == Raised(Entered(old(level.State()), layer).effect)
  {
    fault := None;
    if layer == PlayerLayer {
      fault := Checkpoints.LoadCurrentCheckpoint(level, world);
    }
  }
}
