/**
 * `JumpTrajectoryPreview`: an editor tool that draws the path a jump from
 * the preview actor would take, by explicit Euler integration with a fixed
 * step, into a points array whose size follows `MaxLength`.
 */
module TrajectoryPreview {
  import opened Wrappers
  import opened Geometry

  /** `DeltaTime`, the integration step */
  const DeltaTime: real := 0.02
  /** The divisor that turns `MaxLength` into a number of points */
  const PointSpacing: real := 0.2
  const GravityMagnitude: real := 981.0
  /** The initial value of the `maxLength` field */
  const InitialMaxLength: real := 100.0

  /**
   * `InitPointsArray`'s size: `MaxLength / 0.2` truncated, plus one when odd.
   * The result is the one even number within one of `MaxLength / 0.2`
   * (from below inclusive, from above exclusive).
   */
  function PointsLength(maxLength: real): (n: nat)
    requires maxLength >= 0.0
    ensures n % 2 == 0
    ensures (n - 1) as real <= maxLength / PointSpacing < (n + 1) as real
  {
    var t := (maxLength / PointSpacing).Floor;
    if t % 2 != 0 then t + 1 else t
  }

  /** The largest value of a C# `int` */
  const Int32Max: int := 0x7FFF_FFFF
  /** The smallest value of a C# `int` */
  const Int32Min: int := -0x8000_0000

  /** Two's-complement wrap-around of an integer into the range of a C# `int` */
  function WrapInt32(x: int): (r: int)
    ensures Int32Min <= r <= Int32Max
    ensures (r - x) % 0x1_0000_0000 == 0
  {
    (x - Int32Min) % 0x1_0000_0000 + Int32Min
  }

  /** Whether `InitPointsArray` can allocate for this `MaxLength`: its length fits in an `int` */
  predicate LengthFits(maxLength: real)
    requires maxLength >= 0.0
  {
    PointsLength(maxLength) <= Int32Max
  }

  /** The length fits exactly when `MaxLength / 0.2` is below `int.MaxValue` */
  lemma LengthFitsIff(maxLength: real)
    requires maxLength >= 0.0
    ensures LengthFits(maxLength) <==> maxLength / PointSpacing < Int32Max as real
  {
    var q := maxLength / PointSpacing;
    var n := PointsLength(maxLength);
    if q < Int32Max as real {
      assert (n - 1) as real <= q;
      assert n - 1 < Int32Max;
    } else {
      assert q < (n + 1) as real;
      assert Int32Max < n + 1;
      assert n != Int32Max;
    }
  }

  /** The two ensures of `PointsLength` leave no other choice */
  lemma PointsLengthUnique(maxLength: real, n: int)
    requires maxLength >= 0.0
    requires n % 2 == 0 && (n - 1) as real <= maxLength / PointSpacing < (n + 1) as real
    ensures n == PointsLength(maxLength)
  {
    var m := PointsLength(maxLength);
    assert n - 1 < m + 1 && m - 1 < n + 1;
  }

  /** Below one spacing there are no points at all */
  lemma ShortPreviewHasNoPoints(maxLength: real)
    requires 0.0 <= maxLength < PointSpacing
    ensures PointsLength(maxLength) == 0
  {
  }

  /** With the initial `MaxLength` of 100 the array holds 500 points */
  lemma InitialLength()
    ensures PointsLength(InitialMaxLength) == 500
  {
    PointsLengthUnique(InitialMaxLength, 500);
  }

  /** The simulated body: position, velocity and gravity after some steps */
  datatype Particle = Particle(position: Vec3, velocity: Vec3, gravity: Vec3)

  /**
   * The engine's rotation `v * Quaternion.RotationAxis(axis, angle)`,
   * passed in as `rotate(axis, angle, v)`.
   */
  type Rotation = (Vec3, real, Vec3) -> Vec3

  /** One iteration of the preview loop */
  function Advance(p: Particle, rotate: Rotation, axis: Vec3, angle: real): (r: Particle)
    ensures rotate(axis, angle, p.gravity) == p.gravity ==> r == ClosedForm(p, 1)
  {
    Particle(
      Add(p.position, Scale(DeltaTime, p.velocity)),
      Add(p.velocity, Scale(DeltaTime, p.gravity)),
      rotate(axis, angle, p.gravity))
  }

  /** The particle after `k` iterations */
  function Iterate(p: Particle, rotate: Rotation, axis: Vec3, angle: real, k: nat): (r: Particle)
    ensures rotate(axis, angle, p.gravity) == p.gravity ==> r.gravity == p.gravity
    decreases k
  {
    if k == 0 then p else Advance(Iterate(p, rotate, axis, angle, k - 1), rotate, axis, angle)
  }

  /** The `n` points the loop writes: point `i` is the position after `i` iterations */
  function Trajectory(p: Particle, rotate: Rotation, axis: Vec3, angle: real, n: nat): (r: seq<Vec3>)
    ensures |r| == n
  {
    seq(n, i requires 0 <= i < n => Iterate(p, rotate, axis, angle, i).position)
  }

  /** One coordinate of the position after `k` steps under constant gravity: `p + k·dt·v + k(k-1)/2·dt²·g` */
  function PositionAt(k: real, p: real, v: real, g: real): real {
    p + ((k * DeltaTime) * v + (k * (k - 1.0) / 2.0 * DeltaTime * DeltaTime) * g)
  }

  /** One coordinate of the velocity after `k` steps under constant gravity: `v + k·dt·g` */
  function VelocityAt(k: real, v: real, g: real): real {
    v + (k * DeltaTime) * g
  }

  /** Explicit Euler under constant gravity, written out coordinate by coordinate */
  function ClosedForm(p: Particle, k: nat): Particle {
    var kr := k as real;
    Particle(
      Vec3(PositionAt(kr, p.position.x, p.velocity.x, p.gravity.x),
           PositionAt(kr, p.position.y, p.velocity.y, p.gravity.y),
           PositionAt(kr, p.position.z, p.velocity.z, p.gravity.z)),
      Vec3(VelocityAt(kr, p.velocity.x, p.gravity.x),
           VelocityAt(kr, p.velocity.y, p.gravity.y),
           VelocityAt(kr, p.velocity.z, p.gravity.z)),
      p.gravity)
  }

  lemma ScalarStep(k: real, p: real, v: real, g: real)
    ensures PositionAt(k, p, v, g) + DeltaTime * VelocityAt(k, v, g) == PositionAt(k + 1.0, p, v, g)
    ensures VelocityAt(k, v, g) + DeltaTime * g == VelocityAt(k + 1.0, v, g)
  {
    assert (k + 1.0) * k / 2.0 == k * (k - 1.0) / 2.0 + k;
  }

  lemma ClosedFormStep(p: Particle, k: nat)
    ensures ClosedForm(p, k + 1).position == Add(ClosedForm(p, k).position, Scale(DeltaTime, ClosedForm(p, k).velocity))
    ensures ClosedForm(p, k + 1).velocity == Add(ClosedForm(p, k).velocity, Scale(DeltaTime, p.gravity))
  {
    var kr := k as real;
    assert (k + 1) as real == kr + 1.0;
    ScalarStep(kr, p.position.x, p.velocity.x, p.gravity.x);
    ScalarStep(kr, p.position.y, p.velocity.y, p.gravity.y);
    ScalarStep(kr, p.position.z, p.velocity.z, p.gravity.z);
  }

  /** When the rotation leaves gravity fixed, the loop follows the closed form exactly */
  lemma {:induction false} ConstantGravityClosedForm(p: Particle, rotate: Rotation, axis: Vec3, angle: real, k: nat)
    requires rotate(axis, angle, p.gravity) == p.gravity
    ensures Iterate(p, rotate, axis, angle, k) == ClosedForm(p, k)
    decreases k
  {
    if k == 0 {
      assert ClosedForm(p, 0).position == p.position;
    } else {
      ConstantGravityClosedForm(p, rotate, axis, angle, k - 1);
      ClosedFormStep(p, k - 1);
    }
  }

  /** Point `i` of the preview is the position after `i` iterations */
  lemma TrajectoryAt(p: Particle, rotate: Rotation, axis: Vec3, angle: real, n: nat, i: nat)
    requires i < n
    ensures Trajectory(p, rotate, axis, angle, n)[i] == Iterate(p, rotate, axis, angle, i).position
  {
  }

  /** Under constant gravity each point is `p0 + i·dt·v0 + i(i-1)/2·dt²·g`, coordinate by coordinate */
  lemma ConstantGravityPoints(p: Particle, rotate: Rotation, axis: Vec3, angle: real, n: nat, i: nat)
    requires rotate(axis, angle, p.gravity) == p.gravity && i < n
    ensures Trajectory(p, rotate, axis, angle, n)[i] == ClosedForm(p, i).position
  {
    TrajectoryAt(p, rotate, axis, angle, n, i);
    ConstantGravityClosedForm(p, rotate, axis, angle, i);
  }

  /** One coordinate of projectile motion: `p + t·v + t²/2·g` */
  function ProjectileAt(t: real, p: real, v: real, g: real): real {
    p + (t * v + (t * t / 2.0) * g)
  }

  /** One coordinate of the explicit Euler error at time `t`: `-t·dt/2·g` */
  function DeviationAt(t: real, g: real): real {
    (-t * DeltaTime / 2.0) * g
  }

  lemma ScalarDeviation(k: real, p: real, v: real, g: real)
    ensures PositionAt(k, p, v, g) == ProjectileAt(k * DeltaTime, p, v, g) + DeviationAt(k * DeltaTime, g)
  {
    var t := k * DeltaTime;
    assert k * (k - 1.0) / 2.0 * DeltaTime * DeltaTime == t * t / 2.0 - t * DeltaTime / 2.0;
  }

  /** Projectile motion `p0 + v0·t + g·t²/2` */
  function Projectile(p: Particle, t: real): Vec3 {
    Vec3(ProjectileAt(t, p.position.x, p.velocity.x, p.gravity.x),
         ProjectileAt(t, p.position.y, p.velocity.y, p.gravity.y),
         ProjectileAt(t, p.position.z, p.velocity.z, p.gravity.z))
  }

  /** The explicit Euler error `-g·t·dt/2` */
  function Deviation(g: Vec3, t: real): Vec3 {
    Vec3(DeviationAt(t, g.x), DeviationAt(t, g.y), DeviationAt(t, g.z))
  }

  /**
   * Against projectile motion at `t = i·dt`, each point is off by exactly
   * `-g·t·dt/2`, the error of the explicit Euler step.
   */
  lemma EulerDeviation(p: Particle, rotate: Rotation, axis: Vec3, angle: real, n: nat, i: nat)
    requires rotate(axis, angle, p.gravity) == p.gravity && i < n
    ensures Trajectory(p, rotate, axis, angle, n)[i] == Add(Projectile(p, i as real * DeltaTime), Deviation(p.gravity, i as real * DeltaTime))
  {
    ConstantGravityPoints(p, rotate, axis, angle, n, i);
    var k := i as real;
    ScalarDeviation(k, p.position.x, p.velocity.x, p.gravity.x);
    ScalarDeviation(k, p.position.y, p.velocity.y, p.gravity.y);
    ScalarDeviation(k, p.position.z, p.velocity.z, p.gravity.z);
  }

  /** With zero gravity the points lie evenly spaced on the line through `p0` along `v0` */
  lemma ZeroGravityStraightLine(p: Particle, rotate: Rotation, axis: Vec3, angle: real, n: nat, i: nat)
    requires p.gravity == Zero && rotate(axis, angle, Zero) == Zero && i < n
    ensures Trajectory(p, rotate, axis, angle, n)[i] == Add(p.position, Scale(i as real * DeltaTime, p.velocity))
  {
    ConstantGravityPoints(p, rotate, axis, angle, n, i);
    ClosedFormNoGravity(p, i);
  }

  lemma ScalarNoGravity(k: real, p: real, v: real, g: real)
    requires g == 0.0
    ensures PositionAt(k, p, v, g) == p + (k * DeltaTime) * v
  {
  }

  /** Without gravity the closed form is a straight line */
  lemma ClosedFormNoGravity(p: Particle, k: nat)
    requires p.gravity == Zero
    ensures ClosedForm(p, k).position == Add(p.position, Scale(k as real * DeltaTime, p.velocity))
  {
    var kr := k as real;
    ScalarNoGravity(kr, p.position.x, p.velocity.x, p.gravity.x);
    ScalarNoGravity(kr, p.position.y, p.velocity.y, p.gravity.y);
    ScalarNoGravity(kr, p.position.z, p.velocity.z, p.gravity.z);
  }

  /** The fields of `PlayerScript` the preview reads */
  datatype PlayerParams = PlayerParams(speed: real, gravityRotationScale: real)

  /** The preview actor's transform as read: position and its up, down and forward directions */
  datatype Frame = Frame(position: Vec3, up: Vec3, down: Vec3, forward: Vec3)

  /** The angle gravity turns by per step: `GravityClockwiseDelta * GravityRotationScale * DeltaTime` */
  function StepAngle(gravityClockwiseDelta: real, pl: PlayerParams): (angle: real)
    ensures gravityClockwiseDelta == 0.0 || pl.gravityRotationScale == 0.0 ==> angle == 0.0
  {
    gravityClockwiseDelta * pl.gravityRotationScale * DeltaTime
  }

  /**
   * With `GravityClockwiseDelta` at 0 the angle is 0, so as long as a
   * rotation by 0 leaves gravity as it is, the preview is the closed form.
   */
  lemma ZeroDeltaFollowsClosedForm(frame: Frame, pl: PlayerParams, jumpVelocity: (Vec3, Vec3) -> Vec3, rotate: Rotation, n: nat, i: nat)
    requires rotate(frame.forward, 0.0, Scale(GravityMagnitude, frame.down)) == Scale(GravityMagnitude, frame.down)
    requires i < n
    ensures Trajectory(Start(frame, pl, jumpVelocity), rotate, frame.forward, StepAngle(0.0, pl), n)[i]
         == ClosedForm(Start(frame, pl, jumpVelocity), i).position
  {
    assert StepAngle(0.0, pl) == 0.0;
    ConstantGravityPoints(Start(frame, pl, jumpVelocity), rotate, frame.forward, 0.0, n, i);
  }

  /** How `OnDebugDraw` ends */
  datatype DrawOutcome =
    | LengthOverflow    // the first call's `Initialize` threw: the length does not fit in an `int`
    | NoPlayer          // `Player` is null: nothing is computed
    | NullPoints        // `points` was never allocated: the write to `points[0]` throws
    | IndexOutOfRange   // `points` is empty: the write to `points[0]` throws
    | Drawn             // the points are filled

  /** The particle the preview starts from, for player `pl` and the engine's jump velocity */
  function Start(frame: Frame, pl: PlayerParams, jumpVelocity: (Vec3, Vec3) -> Vec3): (p: Particle)
    ensures p.position == frame.position
    ensures p.velocity == jumpVelocity(frame.up, Scale(pl.speed, frame.forward))
    ensures p.gravity == Vec3(981.0 * frame.down.x, 981.0 * frame.down.y, 981.0 * frame.down.z)
  {
    Particle(frame.position, jumpVelocity(frame.up, Scale(pl.speed, frame.forward)), Scale(GravityMagnitude, frame.down))
  }

  /**
   * The loop of `OnDebugDraw`: `points[0]` is the start position; each
   * later point adds `velocity * dt` to the one before, then velocity
   * gains `gravity * dt` and gravity is rotated.
   */
  method FillPoints(points: array<Vec3>, start: Particle, rotate: Rotation, axis: Vec3, angle: real)
    requires points.Length > 0
    modifies points
    ensures points[..] == Trajectory(start, rotate, axis, angle, points.Length)
  {
    var gravity, velocity := start.gravity, start.velocity;
    points[0] := start.position;
    var i := 1;
    while i < points.Length
      invariant 1 <= i <= points.Length
      invariant forall j :: 0 <= j < i ==> points[j] == Iterate(start, rotate, axis, angle, j).position
      invariant velocity == Iterate(start, rotate, axis, angle, i - 1).velocity
      invariant gravity == Iterate(start, rotate, axis, angle, i - 1).gravity
    {
      points[i] := Add(points[i - 1], Scale(DeltaTime, velocity));
      velocity := Add(velocity, Scale(DeltaTime, gravity));
      gravity := rotate(axis, angle, gravity);
      i := i + 1;
    }
  }

  class JumpTrajectoryPreview {
    var maxLength: real
    var player: Option<PlayerParams>
    var gravityClockwiseDelta: real
    var initialized: bool
    var points: array?<Vec3>

    /** The setter's clamp keeps `MaxLength` non-negative */
    ghost predicate Valid()
      reads this
    {
      maxLength >= 0.0
    }

    /** A freshly placed preview, with `Player` as set in the editor */
    constructor (player: Option<PlayerParams>)
      ensures Valid()
      ensures maxLength == InitialMaxLength && gravityClockwiseDelta == 0.0
      ensures this.player == player && !initialized && points == null
    {
      maxLength := InitialMaxLength;
      this.player := player;
      gravityClockwiseDelta := 0.0;
      initialized := false;
      points := null;
    }

    /**
     * The `MaxLength` setter: clamps at zero and reallocates the points.
     * `maxLength` is assigned before the allocation, so when the
     * allocation throws (`ok` false) the old array stays.
     */
    method SetMaxLength(value: real) returns (ok: bool)
      requires Valid()
      modifies this
      ensures Valid()
      ensures maxLength == if value < 0.0 then 0.0 else value
      ensures ok <==> LengthFits(maxLength)
      ensures ok ==> points != null && fresh(points) && points.Length == PointsLength(maxLength)
      ensures !ok ==> points == old(points)
      ensures player == old(player) && gravityClockwiseDelta == old(gravityClockwiseDelta)
      ensures initialized == old(initialized)
    {
      maxLength := if value < 0.0 then 0.0 else value;
      ok := InitPointsArray();
    }

    /**
     * `InitPointsArray`: `(int)(MaxLength / 0.2f)`, plus one when odd, then
     * `new Vector3[lenght]`. A quotient beyond `int.MaxValue` converts to
     * `int.MinValue`; `int.MaxValue + 1` wraps to `int.MinValue`; a negative
     * size throws and leaves `points` as it was (`ok` false).
     */
    method InitPointsArray() returns (ok: bool)
      requires maxLength >= 0.0
      modifies this`points
      ensures ok <==> LengthFits(maxLength)
      ensures ok ==> points != null && fresh(points) && points.Length == PointsLength(maxLength)
      ensures !ok ==> points == old(points)
    {
      var length := (maxLength / PointSpacing).Floor;
      if length > Int32Max {
        length := Int32Min;
      }
      if length % 2 != 0 {
        length := WrapInt32(length + 1);
      }
      if length < 0 {
        return false;
      }
      points := new Vec3[length];
      ok := true;
    }

    /**
     * One-time setup: `Player` falls back to the scene's player script,
     * `found`; both are set before the allocation, which may throw.
     */
    method Initialize(found: Option<PlayerParams>) returns (ok: bool)
      requires Valid()
      modifies this
      ensures Valid() && initialized
      ensures player == if old(player).Some? then old(player) else found
      ensures ok <==> LengthFits(maxLength)
      ensures ok ==> points != null && fresh(points) && points.Length == PointsLength(maxLength)
      ensures !ok ==> points == old(points)
      ensures maxLength == old(maxLength) && gravityClockwiseDelta == old(gravityClockwiseDelta)
    {
      initialized := true;
      player := if player.Some? then player else found;
      ok := InitPointsArray();
    }

    /**
     * `OnDebugDraw`: sets up once, then fills the points by the Euler loop
     * (the drawing itself is left to the engine).
     */
    method OnDebugDraw(frame: Frame, found: Option<PlayerParams>, jumpVelocity: (Vec3, Vec3) -> Vec3, rotate: Rotation)
      returns (outcome: DrawOutcome)
      requires Valid()
      modifies this, points
      ensures Valid() && initialized
      ensures maxLength == old(maxLength) && gravityClockwiseDelta == old(gravityClockwiseDelta)
      ensures old(initialized) ==> player == old(player) && points == old(points)
      ensures !old(initialized) ==> player == if old(player).Some? then old(player) else found
      ensures !old(initialized) && LengthFits(maxLength) ==>
        points != null && fresh(points) && points.Length == PointsLength(maxLength)
      ensures !old(initialized) && !LengthFits(maxLength) ==> points == old(points)
      ensures outcome == LengthOverflow <==> !old(initialized) && !LengthFits(maxLength)
      ensures outcome == NoPlayer <==> outcome != LengthOverflow && player.None?
      ensures outcome == NullPoints <==> outcome != LengthOverflow && player.Some? && points == null
      ensures outcome == IndexOutOfRange <==> outcome != LengthOverflow && player.Some? && points != null && points.Length == 0
      ensures outcome == Drawn ==> points != null
      ensures outcome == Drawn ==>
        points[..] == Trajectory(Start(frame, player.value, jumpVelocity), rotate, frame.forward,
                                 StepAngle(gravityClockwiseDelta, player.value), points.Length)
      ensures outcome != Drawn && old(points) != null ==> old(points)[..] == old(points[..])
    {
      if !initialized {
        var ok := Initialize(found);
        if !ok {
          return LengthOverflow;
        }
      }
      if player.None? {
        return NoPlayer;
      }
      var pl := player.value;
      var angle := StepAngle(gravityClockwiseDelta, pl);
      var gravity := Scale(GravityMagnitude, frame.down);
      var velocity := jumpVelocity(frame.up, Scale(pl.speed, frame.forward));
      if points == null {
        return NullPoints;
      }
      if points.Length == 0 {
        return IndexOutOfRange;
      }
      var start := Particle(frame.position, velocity, gravity);
      assert start == Start(frame, pl, jumpVelocity);
      FillPoints(points, start, rotate, frame.forward, angle);
      outcome := Drawn;
    }
  }
}
