/**
 * `Checkpoint`: claims `Checkpoint.Current` on start, saves itself as
 * current when the player enters its trigger, and on load moves the player
 * to its pose and restores its gravity.
 */
module Checkpoints {
  import opened Wrappers
  import opened Geometry
  import opened Physics
  import opened Level

  /** The initial value of the `DefaultGravity` field */
  const DefaultGravity := Vec3(0.0, -981.0, 0.0)

  /** A checkpoint script as placed in a scene, with its fields left at their defaults */
  function NewCheckpoint(id: CheckpointId, actor: Transform): (c: Checkpoint)
    ensures c.id == id && c.actor == actor
    ensures c.defaultPose.None? && c.defaultGravity == Vec3(0.0, -981.0, 0.0)
  {
    Checkpoint(id, actor, None, DefaultGravity)
  }

  /** The transform a load applies: `DefaultPose`, which falls back to the checkpoint's own actor */
  function PoseOf(c: Checkpoint): (t: Transform)
    ensures c.defaultPose.Some? ==> t == c.defaultPose.value
    ensures c.defaultPose.None? ==> t == c.actor
  {
    c.defaultPose.GetOr(c.actor)
  }

  /** `OnStart`: `Current = Current ?? this` */
  function Claimed(s: LevelState, c: Checkpoint): (r: LevelState)
    ensures r.checkpoint.Some?
    ensures r.checkpoint == Some(c) <==> s.checkpoint.None? || s.checkpoint == Some(c)
    ensures s.checkpoint.Some? ==> r.checkpoint == s.checkpoint
    ensures r.edge == s.edge && r.areas == s.areas
  {
    s.(checkpoint := Some(s.checkpoint.GetOr(c)))
  }

  /** `Save`: makes this checkpoint current, returning early when it already is */
  function Saved(s: LevelState, c: Checkpoint): (r: LevelState)
    ensures r.checkpoint == Some(c)
    ensures r.edge == s.edge && r.areas == s.areas
  {
    if s.checkpoint == Some(c) then s else s.(checkpoint := Some(c))
  }

  /** The trigger-enter handler: only an actor on the player layer saves */
  function Entered(s: LevelState, c: Checkpoint, layer: Layer): (r: LevelState)
    ensures layer == PlayerLayer ==> r.checkpoint == Some(c)
    ensures layer != PlayerLayer ==> r == s
    ensures r.edge == s.edge && r.areas == s.areas
  {
    if layer == PlayerLayer then Saved(s, c) else s
  }

  /**
   * `Load`: the player takes the pose's whole transform, gravity becomes
   * `DefaultGravity`, the player script is reset; velocity is not touched here.
   */
  function Loaded(w: WorldState, c: Checkpoint): (r: WorldState)
    ensures r.player == PoseOf(c) && r.gravity == c.defaultGravity
    ensures r.velocity == w.velocity && r.playerResets == w.playerResets + 1
  {
    WorldState(PoseOf(c), w.velocity, c.defaultGravity, w.playerResets + 1)
  }

  /** The world after a handler's effect: only a load changes it */
  function Apply(w: WorldState, e: Effect): (r: WorldState)
    ensures e.Load? ==> r == Loaded(w, e.checkpoint)
    ensures !e.Load? ==> r == w
  {
    if e.Load? then Loaded(w, e.checkpoint) else w
  }

  // ----- properties of the checkpoint functions -----

  /** Starting never displaces a checkpoint that is already current */
  lemma StartKeepsCurrent(s: LevelState, c: Checkpoint)
    requires s.checkpoint.Some?
    ensures Claimed(s, c) == s
  {
  }

  /** Saving the current checkpoint again changes nothing */
  lemma SaveCurrentIsNoOp(s: LevelState, c: Checkpoint)
    requires s.checkpoint == Some(c)
    ensures Saved(s, c) == s
  {
  }

  /** Saving is idempotent */
  lemma SaveIdempotent(s: LevelState, c: Checkpoint)
    ensures Saved(Saved(s, c), c) == Saved(s, c)
  {
  }

  /** Of two saves the later one wins: a different checkpoint is not rejected */
  lemma LastSaveWins(s: LevelState, a: Checkpoint, b: Checkpoint)
    ensures Saved(Saved(s, a), b).checkpoint == Some(b)
    ensures Saved(Saved(s, a), b) == Saved(s, b)
  {
  }

  /** A checkpoint with default fields loads its own actor's transform and gravity (0, -981, 0) */
  lemma LoadDefaults(id: CheckpointId, actor: Transform, w: WorldState)
    ensures Loaded(w, NewCheckpoint(id, actor)).player == actor
    ensures Loaded(w, NewCheckpoint(id, actor)).gravity == Vec3(0.0, -981.0, 0.0)
  {
  }

  /** Loading twice leaves the same pose and gravity as loading once */
  lemma LoadIdempotentOnPose(w: WorldState, c: Checkpoint)
    ensures Loaded(Loaded(w, c), c).(playerResets := 0) == Loaded(w, c).(playerResets := 0)
  {
  }

  // ----- the handlers, updating the level and the world in place -----

  /** `OnStart` (trigger wiring and field defaults aside) */
  method OnStart(level: Level, c: Checkpoint)
    modifies level
    ensures level.State() == Claimed(old(level.State()), c)
  {
    if level.checkpoint.None? {
      level.checkpoint := Some(c);
    }
  }

  method Save(level: Level, c: Checkpoint)
    modifies level
    ensures level.State() == Saved(old(level.State()), c)
  {
    if level.checkpoint == Some(c) {
      return;
    }
    level.checkpoint := Some(c);
  }

  method OnTriggerEnter(level: Level, c: Checkpoint, layer: Layer)
    modifies level
    ensures level.State() == Entered(old(level.State()), c, layer)
  {
    if layer == PlayerLayer {
      Save(level, c);
    }
  }

  /** `Load`: overwrites the player's transform and the gravity; the level state is untouched */
  method Load(c: Checkpoint, world: World)
    modifies world
    ensures world.State() == Loaded(old(world.State()), c)
  {
    world.player := PoseOf(c);
    world.gravity := c.defaultGravity;
    world.playerResets := world.playerResets + 1;
  }

  /** `Checkpoint.Current.Load()`, as the trigger volumes call it */
  method LoadCurrentCheckpoint(level: Level, world: World) returns (fault: Option<Fault>)
    modifies world
    ensures world.State() == Apply(old(world.State()), LoadCurrent(level.State()))
    ensures fault == Raised(LoadCurrent(level.State()))
  {
    if level.checkpoint.None? {
      return Some(NoCurrentCheckpoint);
    }
    Load(level.checkpoint.value, world);
    fault := None;
  }
}
