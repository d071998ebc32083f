/**
 * All trigger events of a level in one place: the event each script's
 * handler receives, one dispatch function, and the effect of a whole
 * sequence of events on the level state, the world and the faults raised.
 */
module Triggers {
  import opened Wrappers
  import opened Physics
  import opened Level
  import Checkpoints
  import Edges
  import GameplayAreas
  import KillingObstacles

  datatype Trigger =
    | CheckpointStart(checkpoint: Checkpoint)
    | CheckpointEnter(checkpoint: Checkpoint, layer: Layer)
    | EdgeEnter(edge: EdgeId, layer: Layer)
    | EdgeExit(edge: EdgeId, layer: Layer)
    | AreaEnter(area: AreaId, layer: Layer)
    | AreaExit(area: AreaId, layer: Layer)
    | ObstacleEnter(layer: Layer)

  /** The handler that receives `t` */
  function Step(s: LevelState, t: Trigger): (r: Reaction)
    ensures r.effect.Load? ==> s.checkpoint == Some(r.effect.checkpoint)
    ensures t.CheckpointStart? || t.CheckpointEnter? || t.EdgeEnter? ==> r.effect == NoEffect
  {
    match t
    case CheckpointStart(c) => Reaction(Checkpoints.Claimed(s, c), NoEffect)
    case CheckpointEnter(c, l) => Reaction(Checkpoints.Entered(s, c, l), NoEffect)
    case EdgeEnter(e, l) => Reaction(Edges.Entered(s, e, l), NoEffect)
    case EdgeExit(e, l) => Edges.Exited(s, e, l)
    case AreaEnter(a, l) => GameplayAreas.Entered(s, a, l)
    case AreaExit(a, l) => GameplayAreas.Exited(s, a, l)
    case ObstacleEnter(l) => KillingObstacles.Entered(s, l)
  }

  /** The level, the world, and the exceptions the handlers have raised so far */
  datatype Game = Game(level: LevelState, world: WorldState, faults: seq<Fault>)

  /** One event delivered: the fault log grows by at most the one fault raised */
  function Handle(g: Game, t: Trigger): (r: Game)
    ensures r.level == Step(g.level, t).state
    ensures r.world == Checkpoints.Apply(g.world, Step(g.level, t).effect)
    ensures r.faults == g.faults || (|r.faults| == |g.faults| + 1 && r.faults[..|g.faults|] == g.faults)
    ensures |r.faults| == |g.faults| + 1 <==> Step(g.level, t).effect.Raise?
    ensures Step(g.level, t).effect.Raise? ==> r.faults[|g.faults|] == Step(g.level, t).effect.fault
    ensures r.world.playerResets == g.world.playerResets + (if Step(g.level, t).effect.Load? then 1 else 0)
  {
    var r := Step(g.level, t);
    Game(r.state, Checkpoints.Apply(g.world, r.effect), g.faults + if r.effect.Raise? then [r.effect.fault] else [])
  }

  /** The game after the events `ts`, in order */
  function Run(g: Game, ts: seq<Trigger>): (r: Game)
    ensures g.faults <= r.faults && |r.faults| <= |g.faults| + |ts|
    ensures g.world.playerResets <= r.world.playerResets <= g.world.playerResets + |ts|
    decreases |ts|
  {
    if ts == [] then g else Handle(Run(g, ts[..|ts| - 1]), ts[|ts| - 1])
  }

  /** The level as the scripts leave it: `CurrentAreas` is never assigned, so it stays null */
  function InitialAsWritten(w: WorldState): (g: Game)
    ensures g.level.areas.None?
  {
    Game(LevelState(None, None, None), w, [])
  }

  /** The level with `CurrentAreas` initialised to an empty set */
  function Initial(w: WorldState): (g: Game)
    ensures g.level.areas == Some({})
  {
    Game(LevelState(None, None, Some({})), w, [])
  }

  predicate IsSave(t: Trigger) {
    t.CheckpointEnter? && t.layer == PlayerLayer
  }

  predicate IsEdgeEnter(t: Trigger) {
    t.EdgeEnter? && t.layer == PlayerLayer
  }

  /** Whether the player is inside area `a` after `ts`: its last player event for `a` was an enter */
  predicate Inside(a: AreaId, ts: seq<Trigger>)
    decreases |ts|
  {
    if ts == [] then false
    else
      var t := ts[|ts| - 1];
      if (t.AreaEnter? || t.AreaExit?) && t.area == a && t.layer == PlayerLayer then t.AreaEnter?
      else Inside(a, ts[..|ts| - 1])
  }

  function Starts(cs: seq<Checkpoint>): (ts: seq<Trigger>)
    ensures |ts| == |cs|
    ensures forall i :: 0 <= i < |cs| ==> ts[i] == CheckpointStart(cs[i])
  {
    seq(|cs|, i requires 0 <= i < |cs| => CheckpointStart(cs[i]))
  }

  // ----- one event -----

  /** A load is requested exactly by these events, and only when a checkpoint is current */
  lemma LoadRequestedIff(s: LevelState, t: Trigger)
    ensures Step(s, t).effect.Load? <==>
      && s.checkpoint.Some?
      && !t.CheckpointStart? && t.layer == PlayerLayer
      && (|| (t.EdgeExit? && s.edge == Some(t.edge))
          || (t.AreaExit? && s.areas.Some? && s.areas.value - {t.area} == {})
          || t.ObstacleEnter?)
    ensures Step(s, t).effect.Load? ==> Step(s, t).effect.checkpoint == s.checkpoint.value
  {
  }

  /** Only the checkpoint scripts change `Checkpoint.Current` */
  lemma VolumesKeepCheckpoint(s: LevelState, t: Trigger)
    requires !t.CheckpointStart? && !t.CheckpointEnter?
    ensures Step(s, t).state.checkpoint == s.checkpoint
  {
  }

  // ----- sequences of events -----

  /** Once some checkpoint is current, one always is */
  lemma {:induction false} CurrentCheckpointPersists(g: Game, ts: seq<Trigger>)
    requires g.level.checkpoint.Some?
    ensures Run(g, ts).level.checkpoint.Some?
    decreases |ts|
  {
    if ts != [] {
      CurrentCheckpointPersists(g, ts[..|ts| - 1]);
    }
  }

  /** The scene's start-up claims: of the checkpoints started in order, the first becomes current */
  lemma {:induction false} FirstStartedClaims(g: Game, cs: seq<Checkpoint>)
    requires g.level.checkpoint.None? && |cs| > 0
    ensures Run(g, Starts(cs)).level.checkpoint == Some(cs[0])
    decreases |cs|
  {
    var ts := Starts(cs);
    if |cs| > 1 {
      assert ts[..|ts| - 1] == Starts(cs[..|cs| - 1]);
      FirstStartedClaims(g, cs[..|cs| - 1]);
    } else {
      assert ts[..0] == [];
    }
  }

  /** The checkpoint the player entered last is current, whatever else happened after */
  lemma {:induction false} LastEnteredCheckpointWins(g: Game, ts: seq<Trigger>, i: nat)
    requires i < |ts| && IsSave(ts[i])
    requires forall j :: i < j < |ts| ==> !IsSave(ts[j])
    ensures Run(g, ts).level.checkpoint == Some(ts[i].checkpoint)
    decreases |ts|
  {
    if i < |ts| - 1 {
      LastEnteredCheckpointWins(g, ts[..|ts| - 1], i);
    }
  }

  /** The edge the player entered last is `Edge.Current`, whatever else happened after */
  lemma {:induction false} LastEnteredEdgeIsCurrent(g: Game, ts: seq<Trigger>, i: nat)
    requires i < |ts| && IsEdgeEnter(ts[i])
    requires forall j :: i < j < |ts| ==> !IsEdgeEnter(ts[j])
    ensures Run(g, ts).level.edge == Some(ts[i].edge)
    decreases |ts|
  {
    if i < |ts| - 1 {
      LastEnteredEdgeIsCurrent(g, ts[..|ts| - 1], i);
    }
  }

  /** Starting from an empty set, `CurrentAreas` holds exactly the areas the player is inside */
  lemma {:induction false} AreasAreThoseInside(g: Game, ts: seq<Trigger>)
    requires g.level.areas == Some({})
    ensures Run(g, ts).level.areas.Some?
    ensures forall a :: a in Run(g, ts).level.areas.value <==> Inside(a, ts)
    decreases |ts|
  {
    if ts != [] {
      AreasAreThoseInside(g, ts[..|ts| - 1]);
    }
  }

  /** With a current checkpoint and an initialised set, no handler ever raises */
  lemma {:induction false} NoFaultsOnceInitialised(g: Game, ts: seq<Trigger>)
    requires g.level.checkpoint.Some? && g.level.areas.Some?
    ensures Run(g, ts).faults == g.faults
    ensures Run(g, ts).level.checkpoint.Some? && Run(g, ts).level.areas.Some?
    decreases |ts|
  {
    if ts != [] {
      NoFaultsOnceInitialised(g, ts[..|ts| - 1]);
    }
  }

  /** As written, the area set stays null for ever, so every player event on an area raises */
  lemma {:induction false} AreasNeverInitialised(w: WorldState, ts: seq<Trigger>, a: AreaId)
    ensures Run(InitialAsWritten(w), ts).level.areas.None?
    ensures Step(Run(InitialAsWritten(w), ts).level, AreaEnter(a, PlayerLayer)).effect == Raise(AreasUninitialised)
    ensures Step(Run(InitialAsWritten(w), ts).level, AreaExit(a, PlayerLayer)).effect == Raise(AreasUninitialised)
    decreases |ts|
  {
    if ts != [] {
      AreasNeverInitialised(w, ts[..|ts| - 1], a);
    }
  }

  /** Corrected: from `Initial`, once a checkpoint has started, the whole level runs without faults */
  lemma StartedLevelRunsWithoutFaults(w: WorldState, c: Checkpoint, ts: seq<Trigger>)
    ensures Run(Initial(w), [CheckpointStart(c)] + ts).faults == []
  {
    var g := Initial(w);
    var all := [CheckpointStart(c)] + ts;
    assert Run(g, [CheckpointStart(c)]).level.checkpoint == Some(c) by {
      assert [CheckpointStart(c)][..0] == [];
    }
    RunAppend(g, [CheckpointStart(c)], ts);
    NoFaultsOnceInitialised(Run(g, [CheckpointStart(c)]), ts);
  }

  /** Running two sequences one after the other is running their concatenation */
  lemma {:induction false} RunAppend(g: Game, ts: seq<Trigger>, us: seq<Trigger>)
    ensures Run(g, ts + us) == Run(Run(g, ts), us)
    decreases |us|
  {
    if us == [] {
      assert ts + us == ts;
    } else {
      var us' := us[..|us| - 1];
      assert (ts + us)[..|ts + us| - 1] == ts + us';
      RunAppend(g, ts, us');
    }
  }

  /** All the handlers, as the engine delivers an event to one of them */
  method Dispatch(level: Level, world: World, t: Trigger) returns (fault: Option<Fault>)
    modifies level, world
    ensures level.State() == Step(old(level.State()), t).state
    ensures world.State() == Checkpoints.Apply(old(world.State()), Step(old(level.State()), t).effect)
    ensures fault == Raised(Step(old(level.State()), t).effect)
  {
    fault := None;
    match t
    case CheckpointStart(c) => Checkpoints.OnStart(level, c);
    case CheckpointEnter(c, l) => Checkpoints.OnTriggerEnter(level, c, l);
    case EdgeEnter(e, l) => Edges.OnTriggerEnter(level, e, l);
    case EdgeExit(e, l) => fault := Edges.OnTriggerExit(level, world, e, l);
    case AreaEnter(a, l) => fault := GameplayAreas.OnTriggerEnter(level, a, l);
    case AreaExit(a, l) => fault := GameplayAreas.OnTriggerExit(level, world, a, l);
    case ObstacleEnter(l) => fault := KillingObstacles.OnTriggerEnter(level, world, l);
  }
}
