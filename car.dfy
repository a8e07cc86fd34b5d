/** The vehicle controller of `Solution/car.js`: lane and height commands,
    the eased lane-change and height-change animations, the speed ramp,
    the crash (`hit`, `afterHitPhysics`) and the collision decision.
    The car mesh is flattened into the position and rotation fields of the
    class; `Math.sin`/`Math.cos` are supplied by the caller as `sine` and
    `cosine`, and `Math.random()` as draws in [0, 1). */
module Vehicle {
  import opened Common

  const LaneSep: int := 1000
  const HeightSep: real := 1000.0
  const CarSpeedCap: real := 300.0
  const InitialMaxSpeed: real := 75.0
  const DefaultLaneChangeIters: int := 45
  const HeightChangeIters: int := 28
  const ExplosionParticleCount: nat := 50
  const EngineCount: nat := 4
  /** Height below which wreck pieces stop falling. */
  const FloorHeight: real := 200.0
  /** Scale past which the explosion sphere is complete. */
  const ExplosionLimit: real := 5.0

  predicate IsLane(x: int)
  {
    x == -LaneSep || x == 0 || x == LaneSep
  }

  datatype Transform = Transform(x: real, y: real, z: real, rx: real, ry: real, rz: real)

  /** One falling engine: its mesh transform, `engine_directions[i]` and
      `engine_fall_speeds[i]`. */
  datatype Engine = Engine(at: Transform, direction: real, fallSpeed: real)

  /** The explosion sphere: its position, its scale and whether it is shown. */
  datatype Blast = Blast(x: real, y: real, z: real, scale: real, visible: bool)

  /** One small explosion particle and its two launch angles. */
  datatype Debris = Debris(x: real, y: real, z: real, azimuth: real, elevation: real, colour: int)

  /** The random draws `hit` makes for one explosion particle. */
  datatype DebrisDraw = DebrisDraw(colour: real, azimuth: real, elevation: real)

  /** The random draws a bouncing engine makes in one tick. */
  datatype BounceDraw = BounceDraw(damping: real, direction: real)

  /** The nearest raycast hit along one hitbox corner direction. */
  datatype Intersection = Intersection(distance: real, obstacle: nat)

  /** One hitbox corner: the nearest intersection (if any) of the ray
      through it, and the distance from the hitbox centre to the corner. */
  datatype Corner = Corner(nearest: Option<Intersection>, length: real)

  // ---------------------------------------------------------------------
  // Eased animation weights

  /** `n (1 + n) / 2`, the denominator of every animation weight. */
  function Triangle(n: nat): real
  {
    (n * (1 + n)) as real / 2.0
  }

  lemma TrianglePositive(n: nat)
    requires n >= 1
    ensures Triangle(n) >= 1.0
  {
    assert n * (1 + n) >= 1 * (1 + n);
  }

  /** The influence of iteration `i` of an `n`-step animation,
      `|i - n| / (n (n + 1) / 2)`; the iteration never exceeds `n`, so the
      absolute value is `n - i`. */
  function Weight(i: int, n: int): (w: real)
    requires 0 <= i <= n && n >= 1
    ensures w >= 0.0
    ensures i == n ==> w == 0.0
  {
    TrianglePositive(n);
    (n - i) as real / Triangle(n)
  }

  /** The fraction of the way covered after `k` animation steps. */
  function Progress(k: nat, n: int): real
    requires k <= n && n >= 1
  {
    if k == 0 then 0.0 else Progress(k - 1, n) + Weight(k - 1, n)
  }

  /** `n + (n - 1) + ... + (n - k + 1)`: the numerators of the first `k`
      weights. */
  function Numerators(k: nat, n: int): real
  {
    if k == 0 then 0.0 else Numerators(k - 1, n) + (n - (k - 1)) as real
  }

  lemma {:induction false} NumeratorsClosed(k: nat, n: nat)
    requires k <= n
    ensures Numerators(k, n) == Triangle(n) - Triangle(n - k)
  {
    if k > 0 {
      NumeratorsClosed(k - 1, n);
      var m := n - k;
      assert (m + 1) * (1 + (m + 1)) == m * (1 + m) + 2 * (m + 1);
    }
  }

  lemma {:induction false} ProgressScaled(k: nat, n: int)
    requires k <= n && n >= 1
    ensures Progress(k, n) * Triangle(n) == Numerators(k, n)
  {
    if k > 0 {
      ProgressScaled(k - 1, n);
      var t := Triangle(n);
      var p := Progress(k - 1, n);
      var a := (n - (k - 1)) as real;
      assert Weight(k - 1, n) * t == a;
      assert (p + Weight(k - 1, n)) * t == p * t + Weight(k - 1, n) * t;
    }
  }

  /** The weights of a whole animation sum to one, so an animation that
      runs all `n` steps covers exactly the distance from start to target. */
  lemma ProgressFull(n: int)
    requires n >= 1
    ensures Progress(n, n) == 1.0
  {
    ProgressScaled(n, n);
    NumeratorsClosed(n, n);
    var t := Triangle(n);
    assert (Progress(n, n) - 1.0) * t == 0.0;
  }

  /** The pitch drift after `k` steps of a height change:
      the sum of `0.001 (i - (N - 1) / 2)` for `i < k`. */
  function PitchDrift(k: nat): real
  {
    if k == 0 then 0.0
    else PitchDrift(k - 1) + 0.001 * ((k - 1) as real - (HeightChangeIters - 1) as real / 2.0)
  }

  lemma {:induction false} PitchDriftClosed(k: nat)
    ensures PitchDrift(k) == 0.0005 * (k * (k - HeightChangeIters)) as real
  {
    if k > 0 {
      PitchDriftClosed(k - 1);
      assert (k - 1) * (k - 1 - HeightChangeIters) + 2 * (k - 1) - 27 == k * (k - HeightChangeIters);
    }
  }

  /** The pitch added during a height change is taken away again by its
      end: the car is level once all 28 steps have run. */
  /** Where an eased animation from `from` to `to` over `n` steps stands
      after `k` steps: each step adds its weight of the whole displacement,
      as `horizontalMovement` does to the x position and `verticalMovement`
      to the height offset. */
  function Eased(from: real, to: real, k: nat, n: int): real
    requires k <= n && n >= 1
  {
    if k == 0 then from else Eased(from, to, k - 1, n) + Stride(from, to, k - 1, n)
  }

  /** What step `k` of an `n`-step animation from `from` to `to` adds: its
      weight of the whole displacement. */
  function Stride(from: real, to: real, k: nat, n: int): real
    requires k < n && n >= 1
  {
    Weight(k, n) * (to - from)
  }

  lemma EasedAdvance(x: real, from: real, to: real, k: nat, n: int)
    requires k < n && x == Eased(from, to, k, n)
    ensures x + Stride(from, to, k, n) == Eased(from, to, k + 1, n)
  {
  }

  /** The eased position is the start plus the accumulated progress of the
      whole displacement. */
  lemma {:induction false} EasedIsProgress(from: real, to: real, k: nat, n: int)
    requires k <= n && n >= 1
    ensures Eased(from, to, k, n) == from + (to - from) * Progress(k, n)
  {
    if k > 0 {
      EasedIsProgress(from, to, k - 1, n);
      var d := to - from;
      var p := Progress(k - 1, n);
      var w := Weight(k - 1, n);
      assert d * p + w * d == d * (p + w);
    }
  }

  /** An eased animation that has run all its steps is exactly on target. */
  lemma EasedLands(from: real, to: real, n: int)
    requires n >= 1
    ensures Eased(from, to, n, n) == to
  {
    EasedIsProgress(from, to, n, n);
    ProgressFull(n);
  }

  lemma PitchReturnsLevel()
    ensures PitchDrift(HeightChangeIters) == 0.0
  {
    PitchDriftClosed(HeightChangeIters);
  }

  // ---------------------------------------------------------------------
  // Speed ramp

  /** One tick of the speed ramp of `move`: towards the initial maximum
      speed first, then slowly towards the cap. */
  function SpeedRamp(s: real): (r: real)
    ensures s < CarSpeedCap ==> s < r < CarSpeedCap
    ensures s < InitialMaxSpeed ==> InitialMaxSpeed - r < InitialMaxSpeed - s
    ensures s >= CarSpeedCap ==> r == s
  {
    var s1 := if s < InitialMaxSpeed then s + (InitialMaxSpeed - s) / InitialMaxSpeed else s;
    if s1 < CarSpeedCap then s1 + 0.05 * (CarSpeedCap - s1) / CarSpeedCap else s1
  }

  /** The lane change duration chosen once the car is past the initial
      maximum speed. */
  function LaneChangeItersFor(speed: real): (n: int)
    requires InitialMaxSpeed < speed < CarSpeedCap
    ensures 15 <= n <= 37
  {
    DefaultLaneChangeIters - Round(speed / 10.0)
  }

  // ---------------------------------------------------------------------
  // Crash physics, one piece at a time

  /** The colour `hit` gives an explosion particle for draw `r`. */
  function DebrisColour(r: real): (c: int)
    ensures c in {0x000000, 0x555555, 0xff0000, 0xffff00}
    ensures c == 0x000000 <==> r < 0.25
    ensures c == 0xffff00 <==> r >= 0.75
  {
    if r < 0.25 then 0x000000
    else if r < 0.5 then 0x555555
    else if r < 0.75 then 0xff0000
    else 0xffff00
  }

  /** The direction `hit` gives engine `i`: `-pi/24 + i pi/36`. */
  function EngineDirection(i: int): real
  {
    -PI / 24.0 + (i as real * PI) / 36.0
  }

  /** One tick of a small explosion particle: it drifts along its launch
      angles while at or above height 50, and is settled below it. */
  function DebrisStep(p: Debris, sine: real -> real, cosine: real -> real): (q: Debris)
    ensures p.y < 50.0 ==> q == p
    ensures p.y >= 50.0 ==> q.elevation == p.elevation - 0.05 && q.azimuth == p.azimuth
  {
    if p.y >= 50.0 then
      p.(x := p.x + 20.0 * sine(p.azimuth),
         y := p.y + 20.0 * sine(p.elevation) - 10.0,
         z := p.z + 20.0 * cosine(p.azimuth) - 25.0,
         elevation := p.elevation - 0.05)
    else p
  }

  /** One tick of a falling engine after the explosion, given the wreck
      speed `s` of this tick: drift and spin proportional to `s`, gravity
      while above the floor, otherwise a damped bounce in a new direction,
      stopped for good once the bounce is slower than 10. */
  function EngineStep(e: Engine, s: real, b: BounceDraw, sine: real -> real, cosine: real -> real): (r: Engine)
    requires Unit(b.damping) && Unit(b.direction)
    ensures e.fallSpeed == 0.0 ==> r.fallSpeed == 0.0
    ensures e.at.y > FloorHeight && e.fallSpeed != 0.0 ==>
      r.fallSpeed == e.fallSpeed + 1.5 && r.at.y == e.at.y - e.fallSpeed && r.direction == e.direction
    ensures !(e.at.y > FloorHeight && e.fallSpeed != 0.0) ==>
      Abs(r.fallSpeed) <= 0.8 * Abs(e.fallSpeed) && -PI / 8.0 <= r.direction < PI / 8.0
    ensures r.fallSpeed == 0.0 || Abs(r.fallSpeed) >= 10.0 || (e.at.y > FloorHeight && e.fallSpeed != 0.0)
  {
    var turn := e.direction * s / 50.0;
    var moved := e.at.(x := e.at.x - s * sine(e.direction),
                       z := e.at.z - s * cosine(e.direction),
                       rx := e.at.rx + turn,
                       ry := e.at.ry - turn,
                       rz := e.at.rz + turn);
    if e.at.y > FloorHeight && e.fallSpeed != 0.0 then
      Engine(moved.(y := moved.y - e.fallSpeed), e.direction, e.fallSpeed + 1.5)
    else
      var f := e.fallSpeed * (-0.5 - 0.3 * b.damping);
      assert Abs(f) <= 0.8 * Abs(e.fallSpeed) by { DampingBound(e.fallSpeed, b.damping); }
      Engine(moved.(y := moved.y - f / 0.65),
             -PI / 8.0 + (b.direction * PI) / 4.0,
             if Abs(f) < 10.0 then 0.0 else f)
  }

  lemma DampingBound(v: real, r: real)
    requires Unit(r)
    ensures Abs(v * (-0.5 - 0.3 * r)) <= 0.8 * Abs(v)
  {
    var k := -0.5 - 0.3 * r;
    assert -0.8 < k <= -0.5;
    var a := Abs(v);
    assert Abs(v * k) == a * (-k) by {
      if v < 0.0 { assert v * k == (-v) * (-k); } else { assert -(v * k) == v * (-k); }
    }
    assert a * 0.8 - a * (-k) == a * (0.8 + k);
    MulNonnegative(a, 0.8 + k);
  }

  lemma MulNonnegative(a: real, b: real)
    requires a >= 0.0 && b >= 0.0
    ensures a * b >= 0.0
  {
  }

  /** A new explosion particle at the car, as `hit` makes it from one
      particle's draws: a random azimuth in a full turn, a random upward
      elevation below a quarter turn, and a colour from the palette. */
  function Spark(x: real, y: real, z: real, d: DebrisDraw): (p: Debris)
    ensures p.x == x && p.y == y && p.z == z && p.colour == DebrisColour(d.colour)
    ensures Unit(d.azimuth) ==> 0.0 <= p.azimuth < 2.0 * PI
    ensures Unit(d.elevation) ==> 0.0 <= p.elevation < PI / 2.0
  {
    Debris(x, y, z, d.azimuth * 2.0 * PI, (d.elevation * PI) / 2.0, DebrisColour(d.colour))
  }

  /** Engine `i` as `hit` launches it: a clone of the engine mesh with its
      fixed fan direction and a fall speed of `25 + 50 r`. */
  function Launch(mesh: Transform, i: int, r: real): (e: Engine)
    ensures e.at == mesh && e.direction == EngineDirection(i)
    ensures Unit(r) ==> 25.0 <= e.fallSpeed < 75.0
  {
    Engine(mesh, EngineDirection(i), 25.0 + r * 50.0)
  }

  /** An engine moved to the car's position, rotation kept. */
  function Relocate(e: Engine, x: real, y: real, z: real): (r: Engine)
    ensures r.at.x == x && r.at.y == y && r.at.z == z
    ensures r.at.rx == e.at.rx && r.at.ry == e.at.ry && r.at.rz == e.at.rz
    ensures r.direction == e.direction && r.fallSpeed == e.fallSpeed
  {
    e.(at := e.at.(x := x, y := y, z := z))
  }

  /** One tick of the wreck's descent: it closes a fiftieth of its height
      above the floor, never reaching it, and stays put at or below it. */
  function Settle(y: real): (r: real)
    ensures y > FloorHeight ==> FloorHeight < r < y
    ensures y <= FloorHeight ==> r == y
  {
    if y > FloorHeight then y - (y - FloorHeight) / 50.0 else y
  }

  // ---------------------------------------------------------------------
  // Collision decision

  /** A corner ray hits when its nearest intersection is closer than the
      corner itself. */
  predicate Qualifies(c: Corner)
  {
    c.nearest.Some? && c.nearest.value.distance < c.length
  }

  /** The decision part of `collisionDetection` over the per-corner raycast
      results: the first qualifying corner in index order is the hit, and
      the struck obstacle is to be hidden unless the field is in comet mode. */
  method CollisionDetection(corners: seq<Corner>, mode: int, modeBegan: bool)
    returns (hit: bool, corner: nat, struck: nat, hideStruck: bool)
    ensures hit <==> exists i :: 0 <= i < |corners| && Qualifies(corners[i])
    ensures hit ==> corner < |corners| && Qualifies(corners[corner])
    ensures hit ==> forall j :: 0 <= j < corner ==> !Qualifies(corners[j])
    ensures hit ==> struck == corners[corner].nearest.value.obstacle
    ensures hideStruck <==> hit && mode != 2
  {
    hit, corner, struck, hideStruck := false, 0, 0, false;
    var i := 0;
    while i < |corners|
      invariant 0 <= i <= |corners|
      invariant forall j :: 0 <= j < i ==> !Qualifies(corners[j])
    {
      var c := corners[i];
      if c.nearest.Some? && c.nearest.value.distance < c.length {
        hit, corner, struck := true, i, c.nearest.value.obstacle;
        hideStruck := !((mode == 2 && modeBegan) || (!modeBegan && mode == 2));
        return;
      }
      i := i + 1;
    }
  }

  // ---------------------------------------------------------------------
  // The car

  /** The lane-change fields of the car: `car_center_offset` (the lane it
      is in), `target_pos_x`, `start_pos_x`, `current_col`, `lane_change`,
      `double`, `move_iters`, `flip_iters` and `lane_change_iters`. */
  datatype Lane = Lane(offset: int, target: int, start: real, col: int, changing: bool,
                       double: bool, move: int, flip: int, iters: int)

  /** The height-change fields: `current_row`, `height_change`,
      `curr_height_change_iters`, `car_height_offset`, `start_pos_y` and
      `target_pos_y`. */
  datatype Height = Height(row: int, changing: bool, iters: int, offset: real,
                           start: real, target: real)

  /** The lane state of a car at x position `x`: the lane and target are
      lanes, the column follows the target while changing lanes and the
      lane otherwise, the lane-change length is in its range, and a lane
      change stands `move` steps along the eased path from `start`. */
  ghost predicate LaneOk(l: Lane, x: real)
  {
    && IsLane(l.offset) && IsLane(l.target)
    && (l.col - 1) * 1000 == (if l.changing then l.target else l.offset)
    && 15 <= l.iters <= DefaultLaneChangeIters
    && (l.changing ==>
          && 0 <= l.move <= l.iters
          && 0 <= l.flip <= l.iters
          && x == Eased(l.start, l.target as real, l.move, l.iters))
    && (!l.changing ==> l.move == 0 && l.flip == 0 && x == l.offset as real)
  }

  /** The height state of a car at height `y` and pitch `rotX`: the row is
      0 or 1, and a height change stands `iters` steps along the eased climb
      or descent, pitched by the drift of those steps away from the pitch
      `pitchStart` it began with. */
  ghost predicate HeightOk(h: Height, y: real, rotX: real, pitchStart: real)
  {
    && (h.row == 0 || h.row == 1)
    && (h.changing ==>
          && 0 <= h.iters <= HeightChangeIters
          && h.offset == Eased(0.0, h.target - h.start, h.iters, HeightChangeIters)
          && y == h.start + h.offset
          && rotX == (if h.target > h.start then pitchStart - PitchDrift(h.iters)
                      else pitchStart + PitchDrift(h.iters)))
    && (!h.changing ==> h.iters == 0 && h.offset == 0.0)
  }

  /** One animated tick of a lane change keeps the car on the eased path:
      the position advances by the step's weight of the displacement and
      the step count by one, and the flip count follows it up to the
      lane-change length. */
  lemma LaneAdvances(l: Lane, x: real)
    requires LaneOk(l, x) && l.changing && l.move < l.iters
    ensures LaneOk(l.(move := l.move + 1, flip := if l.flip < l.iters then l.flip + 1 else l.flip),
                   x + Stride(l.start, l.target as real, l.move, l.iters))
  {
    EasedAdvance(x, l.start, l.target as real, l.move, l.iters);
  }

  /** The guard of the double lane change of `moveRight`: a rightward change
      under way, not already doubled, not heading for the rightmost lane,
      and less than half of the flip done. */
  predicate CanExtendRight(l: Lane)
  {
    l.changing && l.target as real > l.start && !l.double && l.target != LaneSep
    && (l.flip as real) < l.iters as real / 2.0
  }

  /** The mirror image of `CanExtendRight` for `moveLeft`. */
  predicate CanExtendLeft(l: Lane)
  {
    l.changing && (l.target as real) < l.start && !l.double && l.target != -LaneSep
    && (l.flip as real) < l.iters as real / 2.0
  }

  class Car {
    /** `car_mesh`: its position and rotation, and whether it is shown. */
    var mesh: Transform
    var carVisible: bool

    var speed: real
    /** The ambient sway phases `sin_z` and `sin_y`. */
    var sinZ: real
    var sinY: real

    var lane: Lane
    var height: Height
    /** The pitch the car had when the current height change began. */
    ghost var pitchStart: real

    /** `explosion_mesh` (None while undefined), the explosion particles,
        the engines, and `smashed_car_mesh` with its speed. */
    var explosion: Option<Blast>
    var explosionParticles: seq<Debris>
    var engines: seq<Engine>
    var smashedSpeed: real
    var explosionComplete: bool
    var wreck: Transform
    var wreckVisible: bool
    var gameOverSpeed: real

    /** The crash pieces come in their fixed numbers. */
    ghost predicate CrashValid()
      reads this`engines, this`explosionParticles, this`explosion
    {
      && (|engines| == 0 || |engines| == EngineCount)
      && (|explosionParticles| == 0 || |explosionParticles| == ExplosionParticleCount)
      && (explosion.Some? ==> |engines| == EngineCount)
    }

    /** The speed stays below the cap, and the lane, height and crash
        states hold for the car's position. */
    ghost predicate Valid()
      reads this
    {
      && 0.0 <= speed < CarSpeedCap
      && MotionValid()
      && CrashValid()
    }

    /** The lane and height states hold for the car's position. */
    ghost predicate MotionValid()
      reads this`mesh, this`lane, this`height, this`pitchStart
    {
      LaneOk(lane, mesh.x) && HeightOk(height, mesh.y, mesh.rx, pitchStart)
    }

    /** `new Car()` with its meshes loaded and placed as `reset` places them. */
    constructor ()
      ensures Valid()
      ensures speed == 1.0 && lane.iters == DefaultLaneChangeIters
      ensures !lane.changing && !height.changing && !lane.double && !explosionComplete && explosion.None?
      ensures lane.col == 1 && height.row == 0 && lane.offset == 0
      ensures mesh.x == 0.0 && mesh.y == 375.0
    {
      mesh := Transform(0.0, 375.0, 0.0, 0.0, 0.0, 0.0);
      carVisible := true;
      speed := 1.0;
      sinZ := 0.0;
      sinY := 0.0;
      lane := Lane(0, 0, 0.0, 1, false, false, 0, 0, DefaultLaneChangeIters);
      height := Height(0, false, 0, 0.0, 375.0, 375.0);
      pitchStart := 0.0;
      explosion := None;
      explosionParticles := [];
      engines := [];
      smashedSpeed := 0.0;
      explosionComplete := false;
      wreck := Transform(0.0, 0.0, 0.0, 0.0, 0.0, 0.0);
      wreckVisible := false;
      gameOverSpeed := 0.0;
    }

    /** `getPosition`: the lane (0, 1 or 2) and row (0 or 1) the car is in
        or heading to. */
    function GetPosition(): (r: (int, int))
      requires Valid()
      reads this
      ensures 0 <= r.0 <= 2 && (r.1 == 0 || r.1 == 1)
      ensures r.0 == 0 <==> (if lane.changing then lane.target else lane.offset) == -LaneSep
      ensures r.0 == 2 <==> (if lane.changing then lane.target else lane.offset) == LaneSep
    {
      (lane.col, height.row)
    }

    // -------------------------------------------------------------------
    // Lane commands

    /** `moveRight`: start a lane change to the right, or extend a
        rightward change already under way by one more lane. Only a fresh
        lane change is reported as accepted. */
    method MoveRight() returns (accepted: bool)
      requires Valid()
      modifies this`lane
      ensures Valid()
      ensures accepted <==> !old(lane.changing) && old(lane.offset) != LaneSep
      ensures accepted ==>
        lane == old(lane).(changing := true, start := old(lane.offset) as real,
                           target := old(lane.offset) + LaneSep, col := old(lane.col) + 1)
      ensures !accepted && CanExtendRight(old(lane)) ==>
        lane == old(lane).(target := old(lane.target) + LaneSep, start := mesh.x,
                           double := true, move := 0, col := old(lane.col) + 1)
      ensures !accepted && !CanExtendRight(old(lane)) ==> lane == old(lane)
    {
      if !lane.changing && lane.offset != LaneSep {
        lane := lane.(changing := true, start := lane.offset as real);
        lane := lane.(target := lane.offset + LaneSep, col := lane.col + 1);
        return true;
      } else if lane.changing && lane.target as real > lane.start && !lane.double
        && lane.target != LaneSep && (lane.flip as real) < lane.iters as real / 2.0
      {
        lane := lane.(target := lane.target + LaneSep, start := mesh.x, double := true, move := 0);
        lane := lane.(col := lane.col + 1);
      }
      return false;
    }

    /** `moveLeft`: the mirror image of `MoveRight`. */
    method MoveLeft() returns (accepted: bool)
      requires Valid()
      modifies this`lane
      ensures Valid()
      ensures accepted <==> !old(lane.changing) && old(lane.offset) != -LaneSep
      ensures accepted ==>
        lane == old(lane).(changing := true, start := old(lane.offset) as real,
                           target := old(lane.offset) - LaneSep, col := old(lane.col) - 1)
      ensures !accepted && CanExtendLeft(old(lane)) ==>
        lane == old(lane).(target := old(lane.target) - LaneSep, start := mesh.x,
                           double := true, move := 0, col := old(lane.col) - 1)
      ensures !accepted && !CanExtendLeft(old(lane)) ==> lane == old(lane)
    {
      if !lane.changing && lane.offset != -LaneSep {
        lane := lane.(changing := true, start := lane.offset as real);
        lane := lane.(target := lane.offset - LaneSep, col := lane.col - 1);
        return true;
      } else if lane.changing && (lane.target as real) < lane.start && !lane.double
        && lane.target != -LaneSep && (lane.flip as real) < lane.iters as real / 2.0
      {
        lane := lane.(target := lane.target - LaneSep, start := mesh.x, double := true, move := 0);
        lane := lane.(col := lane.col - 1);
      }
      return false;
    }

    // -------------------------------------------------------------------
    // Height commands

    /** `moveUp`: rise one row unless already changing height or on top. */
    method MoveUp() returns (accepted: bool)
      requires Valid()
      modifies this`height, this`pitchStart
      ensures Valid()
      ensures accepted <==> !old(height.changing) && mesh.y < 950.0
      ensures accepted ==>
        height == old(height).(changing := true, start := mesh.y, target := mesh.y + HeightSep, row := 1)
      ensures !accepted ==> height == old(height)
    {
      if !height.changing && mesh.y < 950.0 {
        height := height.(changing := true, start := mesh.y, target := mesh.y + HeightSep, row := 1);
        pitchStart := mesh.rx;
        return true;
      }
      return false;
    }

    /** `moveTo`: head for an arbitrary height unless already changing
        height; the row is then taken to be the bottom one. */
    method MoveTo(target: real) returns (accepted: bool)
      requires Valid()
      modifies this`height, this`pitchStart
      ensures Valid()
      ensures accepted <==> !old(height.changing)
      ensures accepted ==>
        height == old(height).(changing := true, start := mesh.y, target := target, row := 0)
      ensures !accepted ==> height == old(height)
    {
      if !height.changing {
        height := height.(changing := true, start := mesh.y, target := target, row := 0);
        pitchStart := mesh.rx;
        return true;
      }
      return false;
    }

    /** `moveDown`: drop one row unless already changing height or at the
        bottom. */
    method MoveDown() returns (accepted: bool)
      requires Valid()
      modifies this`height, this`pitchStart
      ensures Valid()
      ensures accepted <==> !old(height.changing) && mesh.y > 550.0
      ensures accepted ==>
        height == old(height).(changing := true, start := mesh.y, target := mesh.y - HeightSep, row := 0)
      ensures !accepted ==> height == old(height)
    {
      if !height.changing && mesh.y > 550.0 {
        height := height.(changing := true, start := mesh.y, target := mesh.y - HeightSep, row := 0);
        pitchStart := mesh.rx;
        return true;
      }
      return false;
    }

    // -------------------------------------------------------------------
    // Per-tick animation

    /** `horizontalMovement`: one tick of the lane change. While steps
        remain, the car moves by this step's weight of the whole
        displacement and rolls by the flip step's weight of a full turn;
        after the last step the lane change is finished and the car is
        exactly on its target lane. */
    method HorizontalMovement()
      requires Valid()
      modifies this`mesh, this`lane
      ensures Valid()
      ensures mesh.y == old(mesh.y) && mesh.z == old(mesh.z) && mesh.rx == old(mesh.rx) && mesh.ry == old(mesh.ry)
      ensures lane.iters == old(lane.iters) && lane.target == old(lane.target)
      ensures old(lane.changing) && old(lane.move) < old(lane.iters) ==>
        && lane.changing && lane.move == old(lane.move) + 1
        && mesh.x == old(mesh.x) + Stride(lane.start, lane.target as real, old(lane.move), lane.iters)
      ensures old(lane.changing) && old(lane.move) >= old(lane.iters) ==>
        && !lane.changing && !lane.double && lane.offset == lane.target
        && mesh.x == lane.target as real
      ensures old(lane.changing) && old(lane.move) < old(lane.iters) ==>
        && lane == old(lane).(move := old(lane.move) + 1,
                              flip := if old(lane.flip) < lane.iters then old(lane.flip) + 1 else old(lane.flip))
        && mesh.rz == (if (lane.target as real) < lane.start
                       then old(mesh.rz) + 2.0 * PI * Weight(old(lane.flip), lane.iters)
                       else old(mesh.rz) - 2.0 * PI * Weight(old(lane.flip), lane.iters))
      ensures old(lane.changing) && old(lane.move) >= old(lane.iters) ==>
        && lane == old(lane).(offset := old(lane.target), changing := false, move := 0, flip := 0, double := false)
        && mesh == old(mesh)
      ensures !old(lane.changing) ==> lane == old(lane) && mesh == old(mesh)
    {
      if lane.changing && lane.move < lane.iters {
        AdvanceLane();
      } else if lane.changing {
        FinishLane();
      }
    }

    /** The animated branch of `horizontalMovement`. */
    method AdvanceLane()
      requires Valid() && lane.changing && lane.move < lane.iters
      modifies this`mesh, this`lane
      ensures Valid()
      ensures lane == old(lane).(move := old(lane.move) + 1,
                                 flip := if old(lane.flip) < lane.iters then old(lane.flip) + 1 else old(lane.flip))
      ensures mesh == old(mesh).(
        x := old(mesh.x) + Stride(lane.start, lane.target as real, old(lane.move), lane.iters),
        rz := if (lane.target as real) < lane.start
              then old(mesh.rz) + 2.0 * PI * Weight(old(lane.flip), lane.iters)
              else old(mesh.rz) - 2.0 * PI * Weight(old(lane.flip), lane.iters))
    {
      var l := lane;
      var flipInfluence := Weight(l.flip, l.iters);
      if (l.target as real) < l.start {
        mesh := mesh.(rz := mesh.rz + 2.0 * PI * flipInfluence);
      } else {
        mesh := mesh.(rz := mesh.rz - 2.0 * PI * flipInfluence);
      }
      LaneAdvances(l, mesh.x);
      mesh := mesh.(x := mesh.x + Stride(l.start, l.target as real, l.move, l.iters));
      lane := l.(move := l.move + 1, flip := if l.flip < l.iters then l.flip + 1 else l.flip);
    }

    /** The completion branch of `horizontalMovement`: the eased path has
        reached the target, which becomes the lane the car is in. */
    method FinishLane()
      requires Valid() && lane.changing && lane.move >= lane.iters
      modifies this`lane
      ensures Valid()
      ensures lane == old(lane).(offset := old(lane.target), changing := false, move := 0, flip := 0, double := false)
      ensures mesh.x == lane.target as real
    {
      EasedLands(lane.start, lane.target as real, lane.iters);
      lane := lane.(offset := lane.target, changing := false, move := 0, flip := 0, double := false);
    }

    /** `verticalMovement`: one tick of the height change. While steps
        remain, the height offset grows by this step's weight of the whole
        climb or descent and the car pitches by the step's drift; after the
        last step the car is exactly at the target height and level again. */
    method VerticalMovement()
      requires Valid()
      modifies this`mesh, this`height
      ensures Valid()
      ensures mesh.x == old(mesh.x) && mesh.z == old(mesh.z) && mesh.ry == old(mesh.ry) && mesh.rz == old(mesh.rz)
      ensures height.start == old(height.start) && height.target == old(height.target)
      ensures old(height.changing) && old(height.iters) < HeightChangeIters ==>
        && height.changing && height.iters == old(height.iters) + 1
        && height.offset == old(height.offset) + Stride(0.0, height.target - height.start, old(height.iters), HeightChangeIters)
      ensures old(height.changing) && old(height.iters) >= HeightChangeIters ==>
        && !height.changing && height.offset == 0.0
        && mesh.y == height.target && mesh.rx == pitchStart
      ensures old(height.changing) && old(height.iters) < HeightChangeIters ==>
        && height == old(height).(
             iters := old(height.iters) + 1,
             offset := old(height.offset) + Stride(0.0, height.target - height.start, old(height.iters), HeightChangeIters))
        && mesh.y == height.start + height.offset
        && mesh.rx == (if height.target > height.start
                       then old(mesh.rx) - 0.001 * (old(height.iters) as real - 13.5)
                       else old(mesh.rx) + 0.001 * (old(height.iters) as real - 13.5))
      ensures old(height.changing) && old(height.iters) >= HeightChangeIters ==>
        height == old(height).(changing := false, iters := 0, offset := 0.0)
      ensures !old(height.changing) ==> height == old(height) && mesh == old(mesh)
    {
      if height.changing && height.iters < HeightChangeIters {
        AdvanceHeight();
      } else if height.changing {
        FinishHeight();
      }
    }

    /** The animated branch of `verticalMovement`. */
    method AdvanceHeight()
      requires Valid() && height.changing && height.iters < HeightChangeIters
      modifies this`mesh, this`height
      ensures Valid()
      ensures height == old(height).(
        iters := old(height.iters) + 1,
        offset := old(height.offset) + Stride(0.0, height.target - height.start, old(height.iters), HeightChangeIters))
      ensures mesh == old(mesh).(
        y := height.start + height.offset,
        rx := if height.target > height.start
              then old(mesh.rx) - 0.001 * (old(height.iters) as real - 13.5)
              else old(mesh.rx) + 0.001 * (old(height.iters) as real - 13.5))
    {
      var h := height;
      var d := h.target - h.start;
      var drift := 0.001 * (h.iters as real - (HeightChangeIters - 1) as real / 2.0);
      if h.target > h.start {
        mesh := mesh.(rx := mesh.rx - drift);
      } else {
        mesh := mesh.(rx := mesh.rx + drift);
      }
      EasedAdvance(h.offset, 0.0, d, h.iters, HeightChangeIters);
      height := h.(offset := h.offset + Stride(0.0, d, h.iters, HeightChangeIters), iters := h.iters + 1);
      mesh := mesh.(y := h.start + height.offset);
    }

    /** The completion branch of `verticalMovement`: the car is exactly at
        the target height, and the pitch drift has summed to zero. */
    method FinishHeight()
      requires Valid() && height.changing && height.iters >= HeightChangeIters
      modifies this`mesh, this`height
      ensures Valid()
      ensures height == old(height).(changing := false, iters := 0, offset := 0.0)
      ensures mesh == old(mesh).(y := height.target)
      ensures mesh.rx == pitchStart
    {
      EasedLands(0.0, height.target - height.start, HeightChangeIters);
      PitchReturnsLevel();
      mesh := mesh.(y := height.target);
      height := height.(offset := 0.0, changing := false, iters := 0);
    }

    /** The part of `move` before the two animations: the car glides
        forward to z = -2500, the speed ramps up while neither animation
        runs (which also re-derives the lane-change length), and the car
        sways while not changing lanes. `swayZ` and `swayY` are the two
        random draws of the sway and `sine` is `Math.sin`. */
    method Cruise(swayZ: real, swayY: real, sine: real -> real)
      requires Valid() && Unit(swayZ) && Unit(swayY)
      modifies this`mesh, this`speed, this`lane, this`sinZ, this`sinY
      ensures Valid()
      ensures mesh.x == old(mesh.x) && mesh.y == old(mesh.y) && mesh.rx == old(mesh.rx)
      ensures lane == old(lane).(iters := lane.iters)
      ensures old(mesh.z) > -2500.0 ==> -2500.0 < mesh.z < old(mesh.z)
      ensures old(mesh.z) > -2500.0 ==> mesh.z == old(mesh.z) + (-2500.0 - old(mesh.z)) * 0.05
      ensures old(mesh.z) <= -2500.0 ==> mesh.z == old(mesh.z)
      ensures !lane.changing && !height.changing ==>
        && speed == SpeedRamp(old(speed))
        && lane.iters == (if speed > InitialMaxSpeed then LaneChangeItersFor(speed) else old(lane.iters))
      ensures lane.changing || height.changing ==> speed == old(speed) && lane.iters == old(lane.iters)
      ensures !lane.changing ==>
        && sinZ == old(sinZ) + 0.05 * swayZ && sinY == old(sinY) + 0.03 * swayY
        && mesh.rz == sine(sinZ) / 10.0 && mesh.ry == sine(sinY) / 25.0
      ensures lane.changing ==>
        sinZ == old(sinZ) && sinY == old(sinY) && mesh.rz == old(mesh.rz) && mesh.ry == old(mesh.ry)
    {
      if mesh.z > -2500.0 {
        Glide();
      }
      if !lane.changing && !height.changing {
        Accelerate();
      }
      if !lane.changing {
        Sway(swayZ, swayY, sine);
      }
    }

    /** The glide of `move`: the car closes a twentieth of its distance to
        z = -2500. */
    method Glide()
      requires Valid()
      modifies this`mesh
      ensures Valid()
      ensures mesh == old(mesh).(z := old(mesh.z) + (-2500.0 - old(mesh.z)) * 0.05)
    {
      mesh := mesh.(z := mesh.z + (-2500.0 - mesh.z) * 0.05);
    }

    /** The speed ramp of `move`, which also re-derives the lane-change
        length once the speed passes the initial maximum. */
    method Accelerate()
      requires Valid() && !lane.changing
      modifies this`speed, this`lane
      ensures Valid()
      ensures speed == SpeedRamp(old(speed))
      ensures lane == old(lane).(iters := if speed > InitialMaxSpeed then LaneChangeItersFor(speed)
                                          else old(lane.iters))
    {
      speed := SpeedRamp(speed);
      if speed > InitialMaxSpeed {
        lane := lane.(iters := LaneChangeItersFor(speed));
      }
    }

    /** The ambient sway of `move`: the two phases advance by a random
        amount and the roll and yaw follow their sines. */
    method Sway(swayZ: real, swayY: real, sine: real -> real)
      requires Valid()
      modifies this`sinZ, this`sinY, this`mesh
      ensures Valid()
      ensures sinZ == old(sinZ) + 0.05 * swayZ && sinY == old(sinY) + 0.03 * swayY
      ensures mesh == old(mesh).(rz := sine(sinZ) / 10.0, ry := sine(sinY) / 25.0)
    {
      sinZ := sinZ + 0.05 * swayZ;
      sinY := sinY + 0.03 * swayY;
      mesh := mesh.(rz := sine(sinZ) / 10.0, ry := sine(sinY) / 25.0);
    }

    /** `move` without the rear particles: `Cruise`, then one tick of each
        animation. */
    method Move(swayZ: real, swayY: real, sine: real -> real)
      requires Valid() && Unit(swayZ) && Unit(swayY)
      modifies this`mesh, this`speed, this`lane, this`sinZ, this`sinY, this`height
      ensures Valid()
      ensures !old(lane.changing) && !old(height.changing) ==> speed == SpeedRamp(old(speed))
      ensures old(lane.changing) || old(height.changing) ==>
        speed == old(speed) && lane.iters == old(lane.iters)
      ensures old(lane.changing) && old(lane.move) < old(lane.iters) ==>
        lane.changing && lane.move == old(lane.move) + 1
      ensures old(lane.changing) && old(lane.move) >= old(lane.iters) ==>
        !lane.changing && lane.offset == lane.target && mesh.x == lane.target as real
      ensures old(height.changing) && old(height.iters) < HeightChangeIters ==>
        height.changing && height.iters == old(height.iters) + 1
      ensures old(height.changing) && old(height.iters) >= HeightChangeIters ==>
        !height.changing && mesh.y == height.target && mesh.rx == pitchStart
      // The glide.
      ensures mesh.z == if old(mesh.z) > -2500.0 then old(mesh.z) + (-2500.0 - old(mesh.z)) * 0.05 else old(mesh.z)
      // The ramp re-derives the lane-change length.
      ensures !old(lane.changing) && !old(height.changing) ==>
        lane.iters == (if speed > InitialMaxSpeed then LaneChangeItersFor(speed) else old(lane.iters))
      // The sway, which a lane change suspends.
      ensures !old(lane.changing) ==>
        && sinZ == old(sinZ) + 0.05 * swayZ && sinY == old(sinY) + 0.03 * swayY
        && mesh.rz == sine(sinZ) / 10.0 && mesh.ry == sine(sinY) / 25.0
        && lane == old(lane).(iters := lane.iters) && mesh.x == old(mesh.x)
      ensures old(lane.changing) ==> sinZ == old(sinZ) && sinY == old(sinY) && mesh.ry == old(mesh.ry)
      // The lane animation.
      ensures old(lane.changing) && old(lane.move) < old(lane.iters) ==>
        && lane == old(lane).(move := old(lane.move) + 1,
                              flip := if old(lane.flip) < old(lane.iters) then old(lane.flip) + 1 else old(lane.flip))
        && mesh.x == old(mesh.x) + Stride(old(lane.start), old(lane.target) as real, old(lane.move), old(lane.iters))
        && mesh.rz == (if (old(lane.target) as real) < old(lane.start)
                       then old(mesh.rz) + 2.0 * PI * Weight(old(lane.flip), old(lane.iters))
                       else old(mesh.rz) - 2.0 * PI * Weight(old(lane.flip), old(lane.iters)))
      ensures old(lane.changing) && old(lane.move) >= old(lane.iters) ==>
        && lane == old(lane).(offset := old(lane.target), changing := false, move := 0, flip := 0, double := false)
        && mesh.rz == old(mesh.rz)
      // The height animation.
      ensures old(height.changing) && old(height.iters) < HeightChangeIters ==>
        && height == old(height).(
             iters := old(height.iters) + 1,
             offset := old(height.offset)
                       + Stride(0.0, old(height.target) - old(height.start), old(height.iters), HeightChangeIters))
        && mesh.y == old(height.start) + height.offset
        && mesh.rx == (if old(height.target) > old(height.start)
                       then old(mesh.rx) - 0.001 * (old(height.iters) as real - 13.5)
                       else old(mesh.rx) + 0.001 * (old(height.iters) as real - 13.5))
      ensures old(height.changing) && old(height.iters) >= HeightChangeIters ==>
        height == old(height).(changing := false, iters := 0, offset := 0.0)
      ensures !old(height.changing) ==> height == old(height) && mesh.y == old(mesh.y) && mesh.rx == old(mesh.rx)
    {
      Cruise(swayZ, swayY, sine);
      HorizontalMovement();
      VerticalMovement();
    }

    // -------------------------------------------------------------------
    // Crash

    /** `hit`: keep the speed at the moment of impact as the game-over and
        wreck speed, stop the car, and arm the explosion: a sphere just in
        front of the car, 50 coloured particles at the car launched along
        random angles, and 4 engines fanned out in fixed directions with
        random fall speeds. `engineMesh` is the loaded engine transform the
        engines are cloned from. */
    method Hit(engineMesh: Transform, draws: seq<DebrisDraw>, falls: seq<real>)
      requires Valid()
      requires |draws| == ExplosionParticleCount && |falls| == EngineCount
      requires forall i :: 0 <= i < |draws| ==>
        Unit(draws[i].colour) && Unit(draws[i].azimuth) && Unit(draws[i].elevation)
      requires forall i :: 0 <= i < |falls| ==> Unit(falls[i])
      modifies this`gameOverSpeed, this`smashedSpeed, this`speed, this`explosion,
               this`explosionParticles, this`engines
      ensures Valid()
      ensures gameOverSpeed == old(speed) && smashedSpeed == old(speed) && speed == 0.0
      ensures explosion == Some(Blast(mesh.x, mesh.y, mesh.z + 250.0, 1.0, true))
      ensures |explosionParticles| == ExplosionParticleCount
      ensures forall i :: 0 <= i < ExplosionParticleCount ==>
        explosionParticles[i] == Spark(mesh.x, mesh.y, mesh.z, draws[i])
      ensures |engines| == EngineCount
      ensures forall i :: 0 <= i < EngineCount ==> engines[i] == Launch(engineMesh, i, falls[i])
    {
      gameOverSpeed := speed;
      smashedSpeed := speed;
      speed := 0.0;
      explosion := Some(Blast(mesh.x, mesh.y, mesh.z + 250.0, 1.0, true));
      explosionParticles := ScatterDebris(explosionParticles, mesh, draws);
      engines := LaunchEngines(engines, engineMesh, falls);
    }

    /** `afterHitPhysics`: the explosion grows by 1.25 a tick until its scale
        passes 5; on the first tick after that the explosion is complete,
        once and for all: the sphere is hidden, the wreck and the engines
        are put where the car is, the wreck is shown and the car is moved
        out of sight. Particles drift every tick; once the explosion is
        complete the wreck slows by 1.02 a tick and settles to the floor
        while each engine falls, bounces and finally stops. `bounces` are
        the random draws of the four engines this tick. */
    method AfterHitPhysics(bounces: seq<BounceDraw>, sine: real -> real, cosine: real -> real)
      requires Valid() && explosion.Some?
      requires |bounces| == EngineCount
      requires forall i :: 0 <= i < |bounces| ==> Unit(bounces[i].damping) && Unit(bounces[i].direction)
      modifies this`explosionComplete, this`explosion, this`wreck, this`wreckVisible, this`mesh,
               this`explosionParticles, this`smashedSpeed, this`engines
      ensures Valid() && explosion.Some?
      ensures mesh == old(mesh).(z := mesh.z)
      ensures explosionComplete <==> old(explosionComplete) || old(explosion.value.scale) > ExplosionLimit
      ensures !old(explosionComplete) && old(explosion.value.scale) > ExplosionLimit ==>
        && explosion == Some(old(explosion.value).(visible := false))
        && wreckVisible && mesh.z == 1000.0
        && wreck == old(wreck).(x := mesh.x, y := Settle(mesh.y), z := old(mesh.z) - old(smashedSpeed) / 2.0,
                                ry := old(wreck.ry) + smashedSpeed / 1250.0)
        && |engines| == EngineCount
        && forall i :: 0 <= i < EngineCount ==>
             engines[i] == EngineStep(Relocate(old(engines[i]), mesh.x, mesh.y, old(mesh.z)),
                                      smashedSpeed, bounces[i], sine, cosine)
      ensures old(explosionComplete) || old(explosion.value.scale) <= ExplosionLimit ==>
        && explosion == Some(old(explosion.value).(scale := old(explosion.value.scale) * 1.25))
        && mesh.z == old(mesh.z) && wreckVisible == old(wreckVisible)
      ensures |explosionParticles| == old(|explosionParticles|)
      ensures forall i :: 0 <= i < |explosionParticles| ==>
        explosionParticles[i] == DebrisStep(old(explosionParticles[i]), sine, cosine)
      ensures explosionComplete ==> smashedSpeed == old(smashedSpeed) / 1.02
      ensures !explosionComplete ==>
        smashedSpeed == old(smashedSpeed) && engines == old(engines) && wreck == old(wreck)
      ensures old(explosionComplete) ==>
        && wreck == old(wreck).(z := old(wreck.z) - old(smashedSpeed) / 2.0, y := Settle(old(wreck.y)),
                                ry := old(wreck.ry) + smashedSpeed / 1250.0)
        && |engines| == EngineCount
        && forall i :: 0 <= i < EngineCount ==>
             engines[i] == EngineStep(old(engines[i]), smashedSpeed, bounces[i], sine, cosine)
      ensures forall i :: 0 <= i < EngineCount && old(engines[i].fallSpeed) == 0.0 ==>
        engines[i].fallSpeed == 0.0
    {
      if explosion.value.scale > ExplosionLimit && !explosionComplete {
        Detonate();
      } else {
        Expand();
      }
      DriftParticles(sine, cosine);
      if explosionComplete {
        WreckPhysics(bounces, sine, cosine);
      }
    }

    /** The second branch of `afterHitPhysics`: the explosion grows. */
    method Expand()
      requires Valid() && explosion.Some?
      modifies this`explosion
      ensures Valid()
      ensures explosion == Some(old(explosion.value).(scale := old(explosion.value.scale) * 1.25))
    {
      explosion := Some(explosion.value.(scale := explosion.value.scale * 1.25));
    }

    /** The particle loop of `afterHitPhysics`. */
    method DriftParticles(sine: real -> real, cosine: real -> real)
      requires Valid()
      modifies this`explosionParticles
      ensures Valid()
      ensures |explosionParticles| == old(|explosionParticles|)
      ensures forall i :: 0 <= i < |explosionParticles| ==>
        explosionParticles[i] == DebrisStep(old(explosionParticles[i]), sine, cosine)
    {
      explosionParticles := DriftDebris(explosionParticles, sine, cosine);
    }

    /** The first branch of `afterHitPhysics`. */
    method Detonate()
      requires Valid() && explosion.Some?
      modifies this`explosionComplete, this`explosion, this`wreck, this`engines,
               this`wreckVisible, this`mesh
      ensures Valid() && explosion.Some?
      ensures explosionComplete && explosion == Some(old(explosion.value).(visible := false))
      ensures wreck == old(wreck).(x := mesh.x, y := mesh.y, z := old(mesh.z))
      ensures wreckVisible && mesh == old(mesh).(z := 1000.0)
      ensures |engines| == EngineCount
      ensures forall i :: 0 <= i < EngineCount ==>
        engines[i] == Relocate(old(engines[i]), mesh.x, mesh.y, old(mesh.z))
    {
      explosionComplete := true;
      explosion := Some(explosion.value.(visible := false));
      wreck := wreck.(x := mesh.x, y := mesh.y, z := mesh.z);
      engines := PlaceEngines(engines, mesh);
      wreckVisible := true;
      mesh := mesh.(z := 1000.0);
    }

    /** The last part of `afterHitPhysics`, once the explosion is complete:
        the wreck slides on, slowing by 1.02 a tick, spins and settles to
        the floor, and each engine takes one physics step at the new wreck
        speed. */
    method WreckPhysics(bounces: seq<BounceDraw>, sine: real -> real, cosine: real -> real)
      requires Valid() && |engines| == EngineCount && |bounces| == EngineCount
      requires forall i :: 0 <= i < |bounces| ==> Unit(bounces[i].damping) && Unit(bounces[i].direction)
      modifies this`wreck, this`smashedSpeed, this`engines
      ensures Valid()
      ensures smashedSpeed == old(smashedSpeed) / 1.02
      ensures wreck == old(wreck).(z := old(wreck.z) - old(smashedSpeed) / 2.0,
                                   y := Settle(old(wreck.y)),
                                   ry := old(wreck.ry) + smashedSpeed / 1250.0)
      ensures |engines| == EngineCount
      ensures forall i :: 0 <= i < EngineCount ==>
        engines[i] == EngineStep(old(engines[i]), smashedSpeed, bounces[i], sine, cosine)
    {
      wreck := wreck.(z := wreck.z - smashedSpeed / 2.0);
      smashedSpeed := smashedSpeed / 1.02;
      wreck := wreck.(ry := wreck.ry + smashedSpeed / 1250.0);
      wreck := wreck.(y := Settle(wreck.y));
      engines := BounceEngines(engines, smashedSpeed, bounces, sine, cosine);
    }

    /** `reset` for a new game: the crash is cleared, both animations are
        stopped and the car is back in the middle lane, bottom row, level,
        visible and at rest. `double`, `start_pos_x`, `target_pos_x` and
        the z position are left as they were. */
    method Reset()
      requires Valid()
      modifies this`explosionParticles, this`engines, this`explosion, this`explosionComplete,
               this`wreckVisible, this`lane, this`height, this`mesh, this`carVisible, this`speed
      ensures Valid()
      ensures explosionParticles == [] && engines == [] && explosion.None? && !explosionComplete
      ensures lane == old(lane).(changing := false, move := 0, flip := 0,
                                 iters := DefaultLaneChangeIters, offset := 0, col := 1)
      ensures height == old(height).(changing := false, iters := 0, offset := 0.0,
                                     start := 375.0, target := 375.0, row := 0)
      ensures mesh == old(mesh).(x := 0.0, y := 375.0, rx := 0.0, ry := 0.0, rz := 0.0)
      ensures !wreckVisible && carVisible && speed == 0.0
    {
      explosionParticles := [];
      engines := [];
      explosion := None;
      explosionComplete := false;
      wreckVisible := false;
      carVisible := true;
      speed := 0.0;
      Recentre();
    }

    /** The motion part of `reset`: both animations stop and the car is
        put level in the middle lane of the bottom row. */
    method Recentre()
      requires Valid()
      modifies this`lane, this`height, this`mesh
      ensures Valid()
      ensures lane == old(lane).(changing := false, move := 0, flip := 0,
                                 iters := DefaultLaneChangeIters, offset := 0, col := 1)
      ensures height == old(height).(changing := false, iters := 0, offset := 0.0,
                                     start := 375.0, target := 375.0, row := 0)
      ensures mesh == old(mesh).(x := 0.0, y := 375.0, rx := 0.0, ry := 0.0, rz := 0.0)
    {
      lane := lane.(changing := false, move := 0, flip := 0, iters := DefaultLaneChangeIters,
                    offset := 0, col := 1);
      height := height.(changing := false, iters := 0, offset := 0.0, start := 375.0,
                        target := 375.0, row := 0);
      mesh := mesh.(x := 0.0, y := 375.0, rx := 0.0, ry := 0.0, rz := 0.0);
    }
  }

  // ---------------------------------------------------------------------
  // The crash loops over the particle and engine lists

  /** The particle loop of `hit`: particle `i` is made at the car from
      draw `i`, overwriting the old list if there is one. */
  method ScatterDebris(particles: seq<Debris>, at: Transform, draws: seq<DebrisDraw>)
    returns (ps: seq<Debris>)
    requires |draws| == ExplosionParticleCount
    requires |particles| == 0 || |particles| == ExplosionParticleCount
    ensures |ps| == ExplosionParticleCount
    ensures forall i :: 0 <= i < ExplosionParticleCount ==> ps[i] == Spark(at.x, at.y, at.z, draws[i])
  {
    ps := particles;
    var i := 0;
    while i < ExplosionParticleCount
      invariant 0 <= i <= ExplosionParticleCount
      invariant |ps| == if |particles| == 0 then i else ExplosionParticleCount
      invariant forall k :: 0 <= k < i ==> ps[k] == Spark(at.x, at.y, at.z, draws[k])
    {
      ps := Put(ps, i, Spark(at.x, at.y, at.z, draws[i]));
      i := i + 1;
    }
  }

  /** The engine loop of `hit`: engine `i` is cloned from the engine mesh
      with fall draw `i`, overwriting the old list if there is one. */
  method LaunchEngines(engines: seq<Engine>, engineMesh: Transform, falls: seq<real>)
    returns (es: seq<Engine>)
    requires |falls| == EngineCount
    requires |engines| == 0 || |engines| == EngineCount
    ensures |es| == EngineCount
    ensures forall i :: 0 <= i < EngineCount ==> es[i] == Launch(engineMesh, i, falls[i])
  {
    es := engines;
    var i := 0;
    while i < EngineCount
      invariant 0 <= i <= EngineCount
      invariant |es| == if |engines| == 0 then i else EngineCount
      invariant forall k :: 0 <= k < i ==> es[k] == Launch(engineMesh, k, falls[k])
    {
      es := Put(es, i, Launch(engineMesh, i, falls[i]));
      i := i + 1;
    }
  }

  /** The engine loop of the first branch of `afterHitPhysics`: every
      engine is moved to the car's position. */
  method PlaceEngines(engines: seq<Engine>, at: Transform) returns (es: seq<Engine>)
    ensures |es| == |engines|
    ensures forall i :: 0 <= i < |es| ==> es[i] == Relocate(engines[i], at.x, at.y, at.z)
  {
    es := engines;
    var i := 0;
    while i < |es|
      invariant 0 <= i <= |es| && |es| == |engines|
      invariant forall k :: 0 <= k < |es| ==>
        es[k] == (if k < i then Relocate(engines[k], at.x, at.y, at.z) else engines[k])
    {
      es := es[i := Relocate(es[i], at.x, at.y, at.z)];
      i := i + 1;
    }
  }

  /** The particle loop of `afterHitPhysics`. */
  method DriftDebris(particles: seq<Debris>, sine: real -> real, cosine: real -> real)
    returns (ps: seq<Debris>)
    ensures |ps| == |particles|
    ensures forall i :: 0 <= i < |ps| ==> ps[i] == DebrisStep(particles[i], sine, cosine)
  {
    ps := particles;
    var j := 0;
    while j < |ps|
      invariant 0 <= j <= |ps| && |ps| == |particles|
      invariant forall k :: 0 <= k < |ps| ==>
        ps[k] == (if k < j then DebrisStep(particles[k], sine, cosine) else particles[k])
    {
      ps := ps[j := DebrisStep(ps[j], sine, cosine)];
      j := j + 1;
    }
  }

  /** The engine loop of `afterHitPhysics` once the explosion is complete:
      every engine takes one physics step at wreck speed `s`. */
  method BounceEngines(engines: seq<Engine>, s: real, bounces: seq<BounceDraw>,
                       sine: real -> real, cosine: real -> real)
    returns (es: seq<Engine>)
    requires |bounces| == |engines|
    requires forall i :: 0 <= i < |bounces| ==> Unit(bounces[i].damping) && Unit(bounces[i].direction)
    ensures |es| == |engines|
    ensures forall i :: 0 <= i < |es| ==> es[i] == EngineStep(engines[i], s, bounces[i], sine, cosine)
  {
    es := engines;
    var i := 0;
    while i < |es|
      invariant 0 <= i <= |es| && |es| == |engines|
      invariant forall k :: 0 <= k < |es| ==>
        es[k] == (if k < i then EngineStep(engines[k], s, bounces[k], sine, cosine) else engines[k])
    {
      es := es[i := EngineStep(es[i], s, bounces[i], sine, cosine)];
      i := i + 1;
    }
  }
}
