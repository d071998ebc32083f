/**
 * `GameplayArea`: the set `CurrentAreas` holds the areas the player is in;
 * leaving the last of them loads the current checkpoint.
 */
module GameplayAreas {
  import opened Wrappers
  import opened Physics
  import opened Level
  import Checkpoints

  /** The trigger-enter handler: `CurrentAreas.Add(this)` for the player */
  function Entered(s: LevelState, a: AreaId, layer: Layer): (r: Reaction)
    ensures layer != PlayerLayer ==> r == Reaction(s, NoEffect)
    ensures layer == PlayerLayer && s.areas.Some? ==> r == Reaction(s.(areas := Some(s.areas.value + {a})), NoEffect)
    ensures layer == PlayerLayer && s.areas.None? ==> r == Reaction(s, Raise(AreasUninitialised))
    ensures r.state.checkpoint == s.checkpoint && r.state.edge == s.edge
  {
    if layer != PlayerLayer then Reaction(s, NoEffect)
    else if s.areas.None? then Reaction(s, Raise(AreasUninitialised))
    else Reaction(s.(areas := Some(s.areas.value + {a})), NoEffect)
  }

  /**
   * The trigger-exit handler: `CurrentAreas.Remove(this)` for the player,
   * then a load exactly when the set has become empty.
   */
  function Exited(s: LevelState, a: AreaId, layer: Layer): (r: Reaction)
    ensures layer != PlayerLayer ==> r == Reaction(s, NoEffect)
    ensures layer == PlayerLayer && s.areas.None? ==> r == Reaction(s, Raise(AreasUninitialised))
    ensures layer == PlayerLayer && s.areas.Some? ==>
      && r.state == s.(areas := Some(s.areas.value - {a}))
      && (r.effect == LoadCurrent(s) <==> s.areas.value - {a} == {})
      && (r.effect == NoEffect <==> s.areas.value - {a} != {})
    ensures r.state.checkpoint == s.checkpoint && r.state.edge == s.edge
  {
    if layer != PlayerLayer then Reaction(s, NoEffect)
    else if s.areas.None? then Reaction(s, Raise(AreasUninitialised))
    else
      var rest := s.areas.value - {a};
      Reaction(s.(areas := Some(rest)), if |rest| == 0 then LoadCurrent(s) else NoEffect)
  }

  /** Entering an area the player is already in changes nothing */
  lemma EnterTwiceIsEnterOnce(s: LevelState, a: AreaId)
    requires s.areas.Some?
    ensures Entered(Entered(s, a, PlayerLayer).state, a, PlayerLayer) == Entered(s, a, PlayerLayer)
  {
  }

  /** Leaving one area while another still holds the player requests no load */
  lemma ExitWithAnotherAreaLeft(s: LevelState, a: AreaId, b: AreaId)
    requires s.areas.Some? && b in s.areas.value && a != b
    ensures Exited(s, a, PlayerLayer).effect == NoEffect
  {
  }

  /** Leaving an area not in an already empty set still requests a load */
  lemma ExitFromEmptySetLoads(s: LevelState, a: AreaId)
    requires s.areas == Some({})
    ensures Exited(s, a, PlayerLayer).effect == LoadCurrent(s)
  {
  }

  /** Entering and then leaving a single area empties the set again and requests a load */
  lemma EnterThenExitLoads(s: LevelState, a: AreaId)
    requires s.areas == Some({})
    ensures Exited(Entered(s, a, PlayerLayer).state, a, PlayerLayer) == Reaction(s, LoadCurrent(s))
  {
  }

  method OnTriggerEnter(level: Level, a: AreaId, layer: Layer) returns (fault: Option<Fault>)
    modifies level
    ensures level.State() == Entered(old(level.State()), a, layer).state
    ensures fault == Raised(Entered(old(level.State()), a, layer).effect)
  {
    fault := None;
    if layer == PlayerLayer {
      if level.areas.None? {
        return Some(AreasUninitialised);
      }
      level.areas := Some(level.areas.value + {a});
    }
  }

  method OnTriggerExit(level: Level, world: World, a: AreaId, layer: Layer) returns (fault: Option<Fault>)
    modifies level, world
    ensures level.State() == Exited(old(level.State()), a, layer).state
    ensures world.State() == Checkpoints.Apply(old(world.State()), Exited(old(level.State()), a, layer).effect)
    ensures fault == Raised(Exited(old(level.State()), a, layer).effect)
  {
    fault := None;
    if layer == PlayerLayer {
      if level.areas.None? {
        return Some(AreasUninitialised);
      }
      level.areas := Some(level.areas.value - {a});
      if |level.areas.value| == 0 {
        fault := Checkpoints.LoadCurrentCheckpoint(level, world);
      }
    }
  }
}
