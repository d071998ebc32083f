# GravityRunner level logic in Dafny

This project models the level logic of GravityRunner, a platformer on the
Flax engine whose player can turn gravity around. It covers three pieces:

- **Level triggers.** Checkpoints, edges, gameplay areas and killing
  obstacles react to trigger-enter and trigger-exit events. Each event
  carries the layer name of the actor that caused it. The scripts share
  three statics: `Checkpoint.Current`, `Edge.Current` and
  `GameplayArea.CurrentAreas`. In the model these live in one `Level`
  object, updated in place. Each handler may ask for the current
  checkpoint to be loaded. A load overwrites the player's transform and the
  global gravity, which live in a `World` object.
- **Out-of-bounds reset.** `Reseter` puts the player back at a fixed
  position, at rest, under the default gravity, once some coordinate of the
  player's position is strictly beyond `Edge`.
- **Jump-trajectory preview.** `JumpTrajectoryPreview` sizes a points array
  from `MaxLength`. It then fills the array by explicit Euler integration
  with a fixed step of 0.02.

Coordinates are reals. Edges and areas are numeric identities. A
checkpoint is a value that carries an id and its settings (`DefaultPose`,
`DefaultGravity`, its own actor's transform). The reference comparison
`Current == this` becomes equality of whole values: the id only tells apart
two scripts whose settings coincide, and a scene gives each id one setting.

The null dereferences the scripts can run into are modelled as outcomes,
not as preconditions. `Checkpoint.Current.Load()` with no current
checkpoint yields `Raise(NoCurrentCheckpoint)`. A use of the null
`CurrentAreas` yields `Raise(AreasUninitialised)`. In both cases the level
keeps whatever the handler changed before the fault. `Triggers.Run` plays a
whole sequence of events and logs the faults raised. The lemmas state when
no fault can occur.

Modules, one per source file, plus shared state:

- `Geometry`: vectors, quaternions and transforms.
- `Physics`: the world the scripts overwrite.
- `Level`: the shared statics.
- `Checkpoints`, `Edges`, `GameplayAreas`, `KillingObstacles`: one module
  per trigger script. Each has a pure transition function per handler and
  a method per handler. The method updates the objects in place and is
  proved equal to the function.
- `Triggers`: all events as one datatype, one dispatch function, and
  induction lemmas over event sequences.
- `OutOfBoundsReset`: the `Reseter` class.
- `TrajectoryPreview`: the `JumpTrajectoryPreview` class.

Checkpoint claiming is sometimes described as first-claim-wins. That holds
only for `OnStart`, where `Current = Current ?? this` never displaces a
current checkpoint. `Save` replaces `Current` with any other checkpoint the
player enters. The model follows the code: the last checkpoint entered
wins (`Triggers.LastEnteredCheckpointWins`).

## Model

| member | source | states |
|---|---|---|
| Checkpoints.NewCheckpoint | Source/Game/Level/Checkpoint.cs:14-16 | a checkpoint placed with default fields has no `DefaultPose` and `DefaultGravity` (0, -981, 0) |
| Checkpoints.PoseOf | Source/Game/Level/Checkpoint.cs:22 | the pose a load uses, `DefaultPose ?? Actor`: the `DefaultPose` actor's transform when set, otherwise the checkpoint's own actor's |
| Checkpoints.Claimed | Source/Game/Level/Checkpoint.cs:20 | on start the checkpoint becomes current iff none (or itself) is current; an existing `Current` is kept; afterwards some checkpoint is current; edge and areas untouched |
| Checkpoints.Saved | Source/Game/Level/Checkpoint.cs:31-37 | after `Save`, `Current` is this checkpoint; edge and areas untouched |
| Checkpoints.Entered | Source/Game/Level/Checkpoint.cs:24-28 | a Player-layer enter makes this checkpoint current; any other layer leaves the level state unchanged |
| Checkpoints.Loaded | Source/Game/Level/Checkpoint.cs:39-45 | a load gives the player the pose's transform and sets gravity to `DefaultGravity`; velocity is untouched; the player script's `Reset` runs once |
| Checkpoints.Apply | Source/Game/Level/Checkpoint.cs:39-45 | only a load effect changes the world, and it changes it as `Loaded` does |
| Checkpoints.StartKeepsCurrent | Source/Game/Level/Checkpoint.cs:20 | starting a checkpoint while one is current changes nothing |
| Checkpoints.SaveCurrentIsNoOp | Source/Game/Level/Checkpoint.cs:33-34 | saving the already-current checkpoint leaves the state unchanged |
| Checkpoints.SaveIdempotent | Source/Game/Level/Checkpoint.cs:31-37 | saving twice equals saving once |
| Checkpoints.LastSaveWins | Source/Game/Level/Checkpoint.cs:36 | saving A then B leaves B current, the same as saving B alone: a different checkpoint is not rejected |
| Checkpoints.LoadDefaults | Source/Game/Level/Checkpoint.cs:15-22 | loading a checkpoint with default fields puts the player at the checkpoint's own actor transform with gravity (0, -981, 0) |
| Checkpoints.LoadIdempotentOnPose | Source/Game/Level/Checkpoint.cs:39-45 | loading twice leaves the same pose, velocity and gravity as loading once |
| Checkpoints.OnStart | Source/Game/Level/Checkpoint.cs:18-22 | the in-place update of `Current` agrees with `Claimed` |
| Checkpoints.Save | Source/Game/Level/Checkpoint.cs:31-37 | the in-place update agrees with `Saved` |
| Checkpoints.OnTriggerEnter | Source/Game/Level/Checkpoint.cs:24-28 | the in-place update agrees with `Entered` |
| Checkpoints.Load | Source/Game/Level/Checkpoint.cs:39-45 | overwrites the world as `Loaded` says; it may modify only the world, so `Current` never changes |
| Checkpoints.LoadCurrentCheckpoint | Source/Game/Level/KillingObstacle.cs:18 | `Checkpoint.Current.Load()` loads the current checkpoint, or raises `NoCurrentCheckpoint` and leaves the world unchanged |
| Level.LoadCurrent | Source/Game/Level/Edge.cs:29 | a load request is a load of `Current` exactly when one is current, and otherwise the null fault |
| Edges.Entered | Source/Game/Level/Edge.cs:16-23 | a Player-layer enter makes this edge current, replacing any other; other layers change nothing; `Checkpoint.Current` and the areas are untouched |
| Edges.Exited | Source/Game/Level/Edge.cs:25-32 | an exit never changes the level state; it requests a load of `Checkpoint.Current` iff this edge is current and the actor is on the Player layer |
| Edges.LastEnteredEdgeWins | Source/Game/Level/Edge.cs:20 | entering e1 then e2 is the same as entering e2 alone |
| Edges.RepeatedExitLoadsAgain | Source/Game/Level/Edge.cs:25-32 | because the exit does not clear `Edge.Current`, a second exit from the same edge requests the same load again |
| Edges.OnTriggerEnter | Source/Game/Level/Edge.cs:16-23 | the in-place update agrees with `Entered` |
| Edges.OnTriggerExit | Source/Game/Level/Edge.cs:25-32 | level, world and raised fault agree with `Exited` and the load it requests |
| GameplayAreas.Entered | Source/Game/Level/GameplayArea.cs:22-29 | a Player-layer enter adds this area to the set, or raises on a null set; other layers change nothing; checkpoint and edge untouched |
| GameplayAreas.Exited | Source/Game/Level/GameplayArea.cs:31-42 | a Player-layer exit removes this area; a load is requested iff the set is then empty; a null set raises; other layers change nothing |
| GameplayAreas.EnterTwiceIsEnterOnce | Source/Game/Level/GameplayArea.cs:26 | entering the same area twice leaves the set as entering once |
| GameplayAreas.ExitWithAnotherAreaLeft | Source/Game/Level/GameplayArea.cs:35-36 | leaving one area while the player is still in another requests no load |
| GameplayAreas.ExitFromEmptySetLoads | Source/Game/Level/GameplayArea.cs:35-38 | leaving an area when the set is already empty still requests a load |
| GameplayAreas.EnterThenExitLoads | Source/Game/Level/GameplayArea.cs:22-42 | entering and then leaving the only area restores the empty set and requests a load |
| GameplayAreas.OnTriggerEnter | Source/Game/Level/GameplayArea.cs:22-29 | the in-place update and the raised fault agree with `Entered` |
| GameplayAreas.OnTriggerExit | Source/Game/Level/GameplayArea.cs:31-42 | level, world and raised fault agree with `Exited` |
| KillingObstacles.Entered | Source/Game/Level/KillingObstacle.cs:15-19 | the handler never changes the level state; a Player-layer enter requests a load of `Checkpoint.Current`; other layers do nothing |
| KillingObstacles.OnTriggerEnter | Source/Game/Level/KillingObstacle.cs:15-19 | level, world and raised fault agree with `Entered` |
| Triggers.Step | Source/Game/Level/Edge.cs:16-32 | each event goes to its script's handler; every load requested is a load of `Checkpoint.Current`; starts, checkpoint enters and edge enters request nothing |
| Triggers.Handle | Source/Game/Level/Checkpoint.cs:39-45 | one event, delivered through the `Step` dispatch to whichever of the four scripts handles it, updates the level as that handler does; the world becomes the requested load's (`Apply`), with one more player reset; the fault log gains one entry exactly when a fault is raised, and that entry is the fault |
| Triggers.Run | Source/Game/Level/Edge.cs:16-32 | events handled in order, each through `Handle` and the `Step` dispatch to the handlers of all four trigger scripts; the fault log only grows, by at most one per event, and so does the count of player resets |
| Triggers.LoadRequestedIff | Source/Game/Level/GameplayArea.cs:31-42 | over all handlers, a load is requested iff a checkpoint is current and the event is a Player exit from the current edge, a Player exit that leaves the area set empty, or a Player obstacle enter; the load is of `Current` |
| Triggers.VolumesKeepCheckpoint | Source/Game/Level/Edge.cs:16-32 | edge, area and obstacle events never change `Checkpoint.Current` |
| Triggers.InitialAsWritten | Source/Game/Level/GameplayArea.cs:16 | as written, the level starts with a null area set |
| Triggers.Initial | Source/Game/Level/GameplayArea.cs:16 | corrected, the level starts with an empty area set |
| Triggers.CurrentCheckpointPersists | Source/Game/Level/Checkpoint.cs:20-37 | once a checkpoint is current, some checkpoint stays current after any events |
| Triggers.FirstStartedClaims | Source/Game/Level/Checkpoint.cs:20 | when checkpoints start in order with none current, the first one started becomes current |
| Triggers.LastEnteredCheckpointWins | Source/Game/Level/Checkpoint.cs:24-37 | after any events, the checkpoint the player entered last is current |
| Triggers.LastEnteredEdgeIsCurrent | Source/Game/Level/Edge.cs:16-23 | after any events, the edge the player entered last is `Edge.Current`; exits do not clear it |
| Triggers.AreasAreThoseInside | Source/Game/Level/GameplayArea.cs:22-42 | from an empty set, `CurrentAreas` is exactly the set of areas whose last Player event was an enter |
| Triggers.NoFaultsOnceInitialised | Source/Game/Level/KillingObstacle.cs:18 | with a current checkpoint and an initialised set, no sequence of events raises a fault |
| Triggers.AreasNeverInitialised | Source/Game/Level/GameplayArea.cs:16 | as written, the area set stays null after any events, so every Player enter or exit of an area raises |
| Triggers.StartedLevelRunsWithoutFaults | Source/Game/Level/GameplayArea.cs:16 | with the set initialised, a level in which a checkpoint has started runs without any fault |
| Triggers.Dispatch | Source/Game/Level/Edge.cs:16-32 | delivering any event to its handler updates level and world and raises as `Step` says |
| Geometry.MaxValue | Source/Game/Reseter.cs:20-21 | `MaxValue` is one of the components and no smaller than any of them |
| OutOfBoundsReset.ResetWorld | Source/Game/Reseter.cs:25-31 | after a reset the position is `ResetPosition`, orientation is identity, velocity is zero and gravity is `Vector3.Down * 981` = (0, -981, 0); scale unchanged |
| OutOfBoundsReset.OutOfBounds | Source/Game/Reseter.cs:20-21 | the bound check `Abs(position).MaxValue > Edge`; with a negative `Edge` every position is out of bounds |
| OutOfBoundsReset.OutOfBoundsIff | Source/Game/Reseter.cs:20-22 | the player is out of bounds iff some coordinate's absolute value is strictly greater than `Edge` |
| OutOfBoundsReset.InsideIsNotOutOfBounds | Source/Game/Reseter.cs:21 | every position whose coordinates are all at most `Edge` in absolute value, the boundary included, is not out of bounds |
| OutOfBoundsReset.ResetIdempotent | Source/Game/Reseter.cs:25-31 | resetting twice equals resetting once |
| OutOfBoundsReset.ResetSettles | Source/Game/Reseter.cs:18-31 | if `ResetPosition` is inside the bounds, the frame after a reset does not reset again |
| OutOfBoundsReset.Reseter.constructor | Source/Game/Reseter.cs:9-10 | `Edge` starts at 1000 and `ResetPosition` at zero |
| OutOfBoundsReset.Reseter.OnLateUpdate | Source/Game/Reseter.cs:18-23 | resets iff the player is out of bounds; otherwise the world is unchanged |
| OutOfBoundsReset.Reseter.Reset | Source/Game/Reseter.cs:25-31 | overwrites the world as `ResetWorld` says |
| TrajectoryPreview.PointsLength | Source/Game/Tools/JumpTrajectoryPreview.cs:62-64 | the array length is even, non-negative, and within one of `MaxLength / 0.2` (n - 1 <= MaxLength / 0.2 < n + 1); whether it fits in an `int` is `LengthFits` |
| TrajectoryPreview.WrapInt32 | Source/Game/Tools/JumpTrajectoryPreview.cs:64 | `lenght++` on a C# `int`: the result is in the `int` range and congruent to the exact sum modulo 2^32 |
| TrajectoryPreview.LengthFitsIff | Source/Game/Tools/JumpTrajectoryPreview.cs:62-65 | the length fits in an `int`, so the array can be allocated, exactly when `MaxLength / 0.2` is below `int.MaxValue` |
| TrajectoryPreview.PointsLengthUnique | Source/Game/Tools/JumpTrajectoryPreview.cs:62-64 | the two properties of `PointsLength` determine the length uniquely |
| TrajectoryPreview.ShortPreviewHasNoPoints | Source/Game/Tools/JumpTrajectoryPreview.cs:62-65 | a `MaxLength` below 0.2 gives an empty array, so the write to `points[0]` faults |
| TrajectoryPreview.InitialLength | Source/Game/Tools/JumpTrajectoryPreview.cs:9 | the initial `MaxLength` of 100 gives 500 points |
| TrajectoryPreview.Advance | Source/Game/Tools/JumpTrajectoryPreview.cs:45-47 | one loop iteration; when the rotation leaves gravity fixed it is one step of the closed form |
| TrajectoryPreview.Iterate | Source/Game/Tools/JumpTrajectoryPreview.cs:43-48 | the particle after k iterations; gravity a rotation leaves fixed stays fixed through them all |
| TrajectoryPreview.StepAngle | Source/Game/Tools/JumpTrajectoryPreview.cs:47 | the angle gravity turns by per step, `GravityClockwiseDelta * GravityRotationScale * 0.02`; zero when either factor is zero |
| TrajectoryPreview.Start | Source/Game/Tools/JumpTrajectoryPreview.cs:39-41 | the loop starts at the actor's position, with the player's jump velocity for a forward speed of `Speed`, under gravity `Down * 981` |
| TrajectoryPreview.ClosedFormNoGravity | Source/Game/Tools/JumpTrajectoryPreview.cs:45-46 | with zero gravity the closed form is p0 + k·dt·v0 |
| TrajectoryPreview.Trajectory | Source/Game/Tools/JumpTrajectoryPreview.cs:41-48 | there is one point per array slot |
| TrajectoryPreview.ConstantGravityClosedForm | Source/Game/Tools/JumpTrajectoryPreview.cs:43-48 | when the rotation fixes gravity, after k steps the position is p0 + k·dt·v0 + k(k-1)/2·dt²·g and the velocity is v0 + k·dt·g |
| TrajectoryPreview.TrajectoryAt | Source/Game/Tools/JumpTrajectoryPreview.cs:41-46 | point i of the preview is the position after i iterations of the loop |
| TrajectoryPreview.ConstantGravityPoints | Source/Game/Tools/JumpTrajectoryPreview.cs:43-48 | under constant gravity, point i is the closed form p0 + i·dt·v0 + i(i-1)/2·dt²·g, coordinate by coordinate |
| TrajectoryPreview.EulerDeviation | Source/Game/Tools/JumpTrajectoryPreview.cs:43-47 | under constant gravity, point i is projectile motion p0 + v0·t + g·t²/2 at t = i·dt, shifted by exactly -g·t·dt/2 |
| TrajectoryPreview.ZeroGravityStraightLine | Source/Game/Tools/JumpTrajectoryPreview.cs:45-46 | with zero gravity the points are p0 + i·dt·v0, evenly spaced on a line |
| TrajectoryPreview.ZeroDeltaFollowsClosedForm | Source/Game/Tools/JumpTrajectoryPreview.cs:47 | with `GravityClockwiseDelta` = 0 the step angle is 0, so if a rotation by 0 is the identity the preview follows the closed form |
| TrajectoryPreview.FillPoints | Source/Game/Tools/JumpTrajectoryPreview.cs:41-48 | the loop fills the array in place with exactly `Trajectory` from the start position, jump velocity and gravity |
| TrajectoryPreview.JumpTrajectoryPreview.constructor | Source/Game/Tools/JumpTrajectoryPreview.cs:9-29 | `maxLength` starts at 100, `GravityClockwiseDelta` at 0, not initialised, no points array |
| TrajectoryPreview.JumpTrajectoryPreview.SetMaxLength | Source/Game/Tools/JumpTrajectoryPreview.cs:15-20 | the setter stores `max(value, 0)`, so `MaxLength` is never negative, and reallocates the array at `PointsLength`; when the length does not fit in an `int` the allocation throws after `maxLength` is stored, and the old array stays |
| TrajectoryPreview.JumpTrajectoryPreview.InitPointsArray | Source/Game/Tools/JumpTrajectoryPreview.cs:60-66 | allocates a fresh array of `PointsLength(MaxLength)` points exactly when that length fits in an `int`; otherwise the cast or the wrapping `lenght++` gives a negative size, the allocation throws and `points` is unchanged |
| TrajectoryPreview.JumpTrajectoryPreview.Initialize | Source/Game/Tools/JumpTrajectoryPreview.cs:53-58 | marks the preview initialised and falls back to the scene's player script when `Player` is unset, both before the allocation; then allocates the points or throws as `InitPointsArray` does |
| TrajectoryPreview.JumpTrajectoryPreview.OnDebugDraw | Source/Game/Tools/JumpTrajectoryPreview.cs:31-51 | initialises at most once, and a throwing first initialisation ends the call; with no player nothing is computed; a never-allocated array faults at `points[0]`, and so does an empty one; otherwise the points are the trajectory from the actor's position, the jump velocity and gravity `Down * 981`, which turns by `GravityClockwiseDelta * GravityRotationScale * 0.02` per step |

## Left out

- Event wiring is left out. `Trigger ?? Actor.GetChild<Collider>()` / `Actor.As<Collider>()` and the `+=` subscriptions are engine glue: the model delivers events to the handlers directly. A missing collider, which would fault at the subscription, is not modelled.
- `Debug.Log` calls and `DebugDraw.DrawLines` are output only.
- `Scene.FindActor("Player")` is assumed to find the player. The world always has one.
- The player actor is assumed to be a `RigidBody` that carries a `PlayerScript`. The null faults of `player.GetScript<PlayerScript>().Reset()` (Checkpoint.cs:44) and of `player.As<RigidBody>()` (Reseter.cs:30) are not modelled: `Checkpoints.Load` and `Reseter.Reset` always complete, where the source would throw after the transform and gravity were written.
- TrajectoryPreview.JumpTrajectoryPreview.OnDebugDraw: the player script is held as a value, `PlayerParams`. A later change to its `Speed` or `GravityRotationScale` is seen only when `player` is reassigned, whereas the source reads both from the referenced script on every call.
- `Scene.FindScript(typeof(PlayerScript))` is passed to `Initialize` and `OnDebugDraw` as the optional `found`.
- PlayerScript.cs in this version of the game does not define `PlayerScript.Reset`, `GetJumpVelocity` or `GravityRotationScale`. Reset is recorded only as a count of calls. Its effect on velocity or look state is not modelled. The jump velocity is a function parameter. `GravityRotationScale` is a player field.
- `Quaternion.RotationAxis` and vector rotation are engine math. They are the parameter `rotate(axis, angle, v)`. The closed forms are proved for a rotation that leaves gravity fixed, as a rotation by angle 0 does.
- The actor transforms a load reads (`DefaultPose.Transform`) and the preview actor's frame are taken as values. A checkpoint actor that moves between start and load is not modelled.
- Single-precision rounding is not modelled, including the `0.2f` division before truncation. Arithmetic is on reals.
- `[Range(-1, 1)]` on `GravityClockwiseDelta` is an editor constraint. It is not modelled.
- TrajectoryPreview.PointsLength: requires `MaxLength >= 0`, which the class keeps as an invariant. The truncation of a negative length is not modelled. It is the exact length, unbounded; whether that length fits in a C# `int` is `LengthFits`, which the allocating methods check.
- TrajectoryPreview.JumpTrajectoryPreview.InitPointsArray: C# leaves the conversion of an out-of-range `float` to `int` unspecified. The model takes `int.MinValue`; saturation at `int.MaxValue` followed by the wrapping `lenght++` gives the same negative size and the same throw. Running out of memory for a length that fits is not modelled.
- `PlayerScript`, `BlackScreen`, `VerticalAngleIndicator` and the preview's custom editor are not part of this model. They cover input, physics casts, UI fades and editor buttons. There is no fade-and-load sequence with an in-progress guard: `Checkpoint.Load` as written loads immediately.

## Findings

| source | as written | input that shows it | evidently intended | confidence | as-written member | corrected member |
|---|---|---|---|---|---|---|
| Source/Game/Level/GameplayArea.cs:16 | `CurrentAreas` has a private setter and nothing assigns it, so it is null; the first Player-layer enter or exit of any gameplay area dereferences null | a level with one gameplay area: the player enters it (`CurrentAreas.Add(this)` on null) | the set starts empty, holds the areas the player is inside, and leaving the last one loads the checkpoint | high; not executed | Triggers.AreasNeverInitialised | Triggers.AreasAreThoseInside |
