/**
 * `Edge`: a trigger that becomes `Edge.Current` when the player enters it,
 * and loads the current checkpoint when the player leaves it while it is
 * still the current edge.
 */
module Edges {
  import opened Wrappers
  import opened Physics
  import opened Level
  import Checkpoints

  /** The trigger-enter handler */
  function Entered(s: LevelState, e: EdgeId, layer: Layer): (r: LevelState)
    ensures layer == PlayerLayer ==> r.edge == Some(e)
    ensures layer != PlayerLayer ==> r == s
    ensures r.checkpoint == s.checkpoint && r.areas == s.areas
  {
    if layer == PlayerLayer then s.(edge := Some(e)) else s
  }

  /** The trigger-exit handler: it never changes the level state, `Edge.Current` included */
  function Exited(s: LevelState, e: EdgeId, layer: Layer): (r: Reaction)
    ensures r.state == s
    ensures !r.effect.NoEffect? <==> s.edge == Some(e) && layer == PlayerLayer
    ensures !r.effect.NoEffect? ==> r.effect == LoadCurrent(s)
  {
    if s.edge == Some(e) && layer == PlayerLayer then Reaction(s, LoadCurrent(s)) else Reaction(s, NoEffect)
  }

  /** Entering a second edge replaces the first as current */
  lemma LastEnteredEdgeWins(s: LevelState, e1: EdgeId, e2: EdgeId)
    ensures Entered(Entered(s, e1, PlayerLayer), e2, PlayerLayer) == Entered(s, e2, PlayerLayer)
  {
  }

  /** An exit leaves the edge current, so leaving it again requests the same load again */
  lemma RepeatedExitLoadsAgain(s: LevelState, e: EdgeId)
    requires s.edge == Some(e) && s.checkpoint.Some?
    ensures Exited(s, e, PlayerLayer).effect == Load(s.checkpoint.value)
    ensures Exited(Exited(s, e, PlayerLayer).state, e, PlayerLayer).effect == Load(s.checkpoint.value)
  {
  }

  method OnTriggerEnter(level: Level, e: EdgeId, layer: Layer)
    modifies level
    ensures level.State() == Entered(old(level.State()), e, layer)
  {
    if layer == PlayerLayer {
      level.edge := Some(e);
    }
  }

  method OnTriggerExit(level: Level, world: World, e: EdgeId, layer: Layer) returns (fault: Option<Fault>)
    modifies world
    ensures level.State() == Exited(old(level.State()), e, layer).state
    ensures world.State() == Checkpoints.Apply(old(world.State()), Exited(old(level.State()), e, layer).effect)
    ensures fault == Raised(Exited(old(level.State()), e, layer).effect)
  {
    fault := None;
    if level.edge == Some(e) && layer == PlayerLayer {
      fault := Checkpoints.LoadCurrentCheckpoint(level, world);
    }
  }
}
