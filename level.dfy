/**
 * The global level state that the trigger scripts share: the static
 * `Checkpoint.Current`, `Edge.Current` and `GameplayArea.CurrentAreas`,
 * held here by one explicitly owned object instead of three statics.
 */
module Level {
  import opened Wrappers
  import opened Geometry

  /** Identities of the scene's edge, gameplay-area and checkpoint scripts */
  type EdgeId = nat
  type AreaId = nat
  type CheckpointId = nat

  /** The layer name of the actor that entered or left a trigger */
  type Layer = string

  const PlayerLayer: Layer := "Player"

  /**
   * One checkpoint script: its identity, the transform of its own actor,
   * the optional `DefaultPose` actor's transform and `DefaultGravity`.
   * `Current == this` compares whole values: the `id` only tells apart two
   * scripts whose settings coincide, and a scene gives each id one setting.
   */
  datatype Checkpoint = Checkpoint(id: CheckpointId, actor: Transform, defaultPose: Option<Transform>, defaultGravity: Vec3)

  /** The null dereferences a trigger handler can run into */
  datatype Fault =
    | NoCurrentCheckpoint  // `Checkpoint.Current` is null when a load is requested
    | AreasUninitialised   // `GameplayArea.CurrentAreas` is null when it is used

  /** What a handler asks of the world after updating the level state */
  datatype Effect =
    | NoEffect
    | Load(checkpoint: Checkpoint)  // `checkpoint.Load()` runs
    | Raise(fault: Fault)           // the handler stops with an exception

  datatype LevelState = LevelState(checkpoint: Option<Checkpoint>, edge: Option<EdgeId>, areas: Option<set<AreaId>>)

  /** The level state after a handler, with the effect it requested */
  datatype Reaction = Reaction(state: LevelState, effect: Effect)

  /** The exception an effect raises, if any */
  function Raised(e: Effect): (f: Option<Fault>)
    ensures f.Some? <==> e.Raise?
  {
    if e.Raise? then Some(e.fault) else None
  }

  /**
   * `Checkpoint.Current.Load()`: loads the current checkpoint, or faults
   * when there is none.
   */
  function LoadCurrent(s: LevelState): (e: Effect)
    ensures e.Load? <==> s.checkpoint.Some?
    ensures e.Load? ==> e.checkpoint == s.checkpoint.value
    ensures e.Raise? ==> e.fault == NoCurrentCheckpoint
    ensures !e.NoEffect?
  {
    match s.checkpoint
    case Some(c) => Load(c)
    case None => Raise(NoCurrentCheckpoint)
  }

  /** The three statics, updated in place by the handlers. */
  class Level {
    var checkpoint: Option<Checkpoint>
    var edge: Option<EdgeId>
    var areas: Option<set<AreaId>>

    function State(): LevelState
      reads this
    {
      LevelState(checkpoint, edge, areas)
    }

    constructor (s: LevelState)
      ensures State() == s
    {
      checkpoint, edge, areas := s.checkpoint, s.edge, s.areas;
    }
  }
}
