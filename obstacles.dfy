/** The obstacle field of `Solution/obstacles.js`: the level state machine
    (asteroid field, solar system, comet trail), the obstacles that scroll
    towards the car with their rotations and comet trails, their recycling
    while a level runs and their draining when it ends, and the
    repopulation for the next level. An obstacle mesh is a `Rock`; meshes,
    scenes and materials are left out, and `Math.random()` draws and the
    clock are supplied by the caller. */
module ObstacleField {
  import opened Common
  import HyperdriveSequencer

  /** An obstacle further forward than this is out of view. */
  const OutOfView: real := 5000.0
  /** How far a comet's trail reaches behind it. */
  const TrailReach: real := 7500.0
  /** `planet_count`, the particles behind each comet, and the lengths of
      the 20 s challenge levels and of the 40 s asteroid field. */
  const PlanetCount: int := 5
  const TrailEmbers: int := 10
  const ChallengeSeconds: int := 20
  const FieldSeconds: int := 40

  /** An obstacle mesh: position, Euler rotation, the lean a planet is
      given about the z axis, and the accumulated turn about the leaned
      y axis that `rotateOnAxis` applies in the solar system. */
  datatype Rock = Rock(x: real, y: real, z: real, rx: real, ry: real, rz: real,
                       lean: real, turn: real)

  /** An entry of `obstacle_rotations`: `[rate, axis]`. */
  datatype Spin = Spin(rate: real, axis: int)

  /** A comet trail particle: position and its (equal x and y) scale. */
  datatype Ember = Ember(x: real, y: real, z: real, scale: real)

  /** The draws of a recycled obstacle: its row, its lane, its depth. */
  datatype Respawn = Respawn(row: real, lane: real, depth: real)

  /** The draws of a new asteroid or comet: lane, row, depth, and the rate
      and axis of its rotation. */
  datatype Seed = Seed(lane: real, row: real, depth: real, rate: real, axis: real)

  /** The draws of a new planet: which mesh, its lane, its lean and its
      rotation rate. */
  datatype PlanetSeed = PlanetSeed(pick: real, lane: real, lean: real, rate: real)

  /** `obstacles`, `obstacle_rotations` and `comet_particles`: parallel
      lists; the trails are either absent or one per obstacle. */
  datatype Field = Field(rocks: seq<Rock>, spins: seq<Spin>, trails: seq<seq<Ember>>)

  /** The level state one sweep of `move` reads, and the car speed. */
  datatype Tick = Tick(mode: int, began: bool, lastMode: int, speed: real)

  predicate Aligned(f: Field)
  {
    |f.spins| == |f.rocks| && (|f.trails| == 0 || |f.trails| == |f.rocks|)
  }

  /** While the comet trail runs, and while any level drains after it, the
      obstacles come at two and a half times the car's speed. */
  predicate CometScroll(t: Tick)
  {
    (t.mode == 2 && t.began) || (!t.began && t.lastMode == 2)
  }

  // ---------------------------------------------------------------------
  // Placement

  /** `-1000 + 1000 Math.round(3 r - 0.5)`: one of the three lanes. */
  function LaneOf(r: real): (x: real)
    ensures Unit(r) ==> x == -1000.0 || x == 0.0 || x == 1000.0
  {
    -1000.0 + 1000.0 * Round(3.0 * r - 0.5) as real
  }

  /** `375 + Math.round(r) 1125`: one of the two rows. */
  function RowOf(r: real): (y: real)
    ensures Unit(r) ==> y == 375.0 || y == 1500.0
  {
    375.0 + Round(r) as real * 1125.0
  }

  /** `-500 + 1000 Math.round(2 r - 0.5)`: between two lanes. */
  function PlanetLaneOf(r: real): (x: real)
    ensures Unit(r) ==> x == -500.0 || x == 500.0
  {
    -500.0 + 1000.0 * Round(2.0 * r - 0.5) as real
  }

  /** `Math.round(4 r - 0.5)`: the rotation axis 0, 1 or 2, or 3 for none. */
  function AxisOf(r: real): (a: int)
    ensures Unit(r) ==> 0 <= a <= 3
  {
    Round(r * 4.0 - 0.5)
  }

  /** `Math.round(r n - 0.5)`: an index into a list of `n` meshes. */
  function PickOf(r: real, n: nat): (k: int)
    requires Unit(r) && n >= 1
    ensures 0 <= k < n
  {
    assert r * n as real < n as real by { MulBelow(r, n as real); }
    Round(r * n as real - 0.5)
  }

  lemma MulBelow(r: real, n: real)
    requires 0.0 <= r < 1.0 && n >= 1.0
    ensures 0.0 <= r * n < n
  {
  }

  /** A new asteroid (`spread` 2) or comet (`spread` 1): number `i` of
      `count` sits in a lane and a row, `50000 + spread i 50000 / count`
      ahead and up to 1000 further. */
  function Placed(template: Rock, i: nat, count: int, spread: real, d: Seed): (r: Rock)
    requires count >= 1 && spread >= 0.0
    ensures r.rx == template.rx && r.ry == template.ry && r.rz == template.rz
    ensures Unit(d.lane) ==> r.x == -1000.0 || r.x == 0.0 || r.x == 1000.0
    ensures Unit(d.row) ==> r.y == 375.0 || r.y == 1500.0
    ensures Unit(d.depth) ==> r.z <= -50000.0
  {
    var gap := 50000.0 / count as real;
    assert spread * i as real * gap >= 0.0 by {
      MulNonneg(spread, i as real);
      MulNonneg(spread * i as real, gap);
    }
    template.(x := LaneOf(d.lane), y := RowOf(d.row),
              z := -50000.0 - spread * i as real * gap - d.depth * 1000.0)
  }

  lemma MulNonneg(a: real, b: real)
    requires a >= 0.0 && b >= 0.0
    ensures a * b >= 0.0
  {
  }

  /** The rotation an asteroid or comet is given: a rate in [-0.5, 0.5)
      and an axis. */
  function SpinOf(d: Seed): (s: Spin)
    ensures Unit(d.rate) ==> -0.5 <= s.rate < 0.5
    ensures Unit(d.axis) ==> 0 <= s.axis <= 3
  {
    Spin(d.rate - 0.5, AxisOf(d.axis))
  }

  /** Planet `i`: a clone of the picked mesh, moved between two lanes
      unless it is centred, 1000 up, `50000 + i 10000` ahead, and leaning
      a fifth of a half turn one way or the other. */
  function PlanetPlaced(mesh: Rock, i: nat, d: PlanetSeed): (r: Rock)
    ensures r.x == 0.0 <==> mesh.x == 0.0
    ensures mesh.x != 0.0 && Unit(d.lane) ==> r.x == -500.0 || r.x == 500.0
    ensures r.y == 1000.0 && r.z == -50000.0 - (i * 50000) as real / PlanetCount as real
    ensures r.lean == PI / 5.0 || r.lean == -PI / 5.0
  {
    var orientation := if d.lean < 0.5 then 1.0 else -1.0;
    mesh.(x := if mesh.x != 0.0 then PlanetLaneOf(d.lane) else mesh.x,
          y := 1000.0,
          z := -50000.0 - (i * 50000) as real / PlanetCount as real,
          lean := (orientation * PI) / 5.0)
  }

  /** A trail particle put behind its comet at `rock`: between 500 and
      8000 behind it. */
  function Rekindled(e: Ember, rock: Rock, r: real): (q: Ember)
    ensures q.x == rock.x && q.y == rock.y && q.scale == e.scale
    ensures Unit(r) ==> rock.z - 8000.0 < q.z <= rock.z - 500.0
  {
    e.(x := rock.x, y := rock.y, z := rock.z - 500.0 - r * 7500.0)
  }

  /** Every particle of trail `i` put behind its comet; `emberDraw(i, j)`
      is the draw of particle `j`. */
  function Rekindle(trail: seq<Ember>, rock: Rock, i: int, emberDraw: (int, int) -> real): seq<Ember>
  {
    seq(|trail|, j requires 0 <= j < |trail| => Rekindled(trail[j], rock, emberDraw(i, j)))
  }

  // ---------------------------------------------------------------------
  // One obstacle in one tick of `move`

  /** The scroll of an obstacle: two and a half times the car's speed (or
      250 while the car stands) in the comet rule, the car's speed
      otherwise. */
  function Scrolled(r: Rock, t: Tick): (q: Rock)
    ensures q == r.(z := q.z)
    ensures CometScroll(t) && t.speed > 0.0 ==> q.z == r.z + 2.5 * t.speed
    ensures CometScroll(t) && t.speed <= 0.0 ==> q.z == r.z + 250.0
    ensures !CometScroll(t) ==> q.z == r.z + t.speed
  {
    if CometScroll(t) then r.(z := r.z + (if t.speed > 0.0 then 2.5 * t.speed else 250.0))
    else r.(z := r.z + t.speed)
  }

  /** A trail particle following its comet at depth `parentZ`: it moves by
      the car's speed and is pulled back onto the comet when it leaves
      the reach of the trail; its scale falls from 1 at the comet to 0 at
      the end of the reach. */
  function Trailed(e: Ember, parentZ: real, speed: real): (q: Ember)
    ensures q.x == e.x && q.y == e.y
    ensures parentZ - TrailReach <= q.z <= parentZ
    ensures 0.0 <= q.scale <= 1.0
    ensures parentZ - TrailReach <= e.z + speed <= parentZ ==> q.z == e.z + speed
    ensures !(parentZ - TrailReach <= e.z + speed <= parentZ) ==> q.z == parentZ && q.scale == 1.0
  {
    var z := e.z + speed;
    var z' := if z < parentZ - TrailReach || z > parentZ then parentZ else z;
    Ember(e.x, e.y, z', 1.0 - (parentZ - z') / TrailReach)
  }

  function Follow(trail: seq<Ember>, parentZ: real, speed: real): seq<Ember>
  {
    seq(|trail|, j requires 0 <= j < |trail| => Trailed(trail[j], parentZ, speed))
  }

  /** An asteroid or comet recycled once it has passed: a new lane and row,
      sent back between 50000 and 55000. */
  function Recycled(r: Rock, d: Respawn): (q: Rock)
    ensures Unit(d.lane) ==> q.x == -1000.0 || q.x == 0.0 || q.x == 1000.0
    ensures Unit(d.row) ==> q.y == 375.0 || q.y == 1500.0
    ensures Unit(d.depth) ==> r.z - 55000.0 < q.z <= r.z - 50000.0
    ensures q == r.(x := q.x, y := q.y, z := q.z)
  {
    r.(y := RowOf(d.row), x := LaneOf(d.lane), z := r.z - (50000.0 + d.depth * 5000.0))
  }

  /** A planet recycled once it has passed: between two lanes unless it is
      centred, 1000 up, sent back exactly 50000. */
  function Returned(r: Rock, d: Respawn): (q: Rock)
    ensures r.x == 0.0 ==> q.x == 0.0
    ensures r.x != 0.0 && Unit(d.lane) ==> q.x == -500.0 || q.x == 500.0
    ensures q.y == 1000.0 && q.z == r.z - 50000.0
    ensures q == r.(x := q.x, y := q.y, z := q.z)
  {
    r.(x := if r.x != 0.0 then PlanetLaneOf(d.lane) else r.x, y := 1000.0, z := r.z - 50000.0)
  }

  /** `s` without its element `i`: `splice(i, 1)`. */
  function Drop<T>(s: seq<T>, i: nat): (r: seq<T>)
    requires i < |s|
    ensures |r| == |s| - 1
    ensures forall k :: 0 <= k < i ==> r[k] == s[k]
    ensures forall k :: i <= k < |r| ==> r[k] == s[k + 1]
  {
    s[..i] + s[i + 1..]
  }

  predicate Sweepable(f: Field, t: Tick, draws: seq<Respawn>)
  {
    Aligned(f) && |f.rocks| <= |draws| && (t.mode == 2 && t.began ==> |f.trails| == |f.rocks|)
  }

  /** The body of the loop of `move` for obstacle `i`: it scrolls (with its
      trail under the comet rule); once out of view it is recycled while a
      level runs, or removed from all three lists while the level drains,
      which slides the next obstacle into slot `i`. */
  function Step(f: Field, i: nat, t: Tick, draws: seq<Respawn>, emberDraw: (int, int) -> real): (g: Field)
    requires Sweepable(f, t, draws) && i < |f.rocks|
    ensures Sweepable(g, t, draws)
    ensures |g.rocks| == |f.rocks| || |g.rocks| == |f.rocks| - 1
    ensures |g.rocks| < |f.rocks| <==> !t.began && Scrolled(f.rocks[i], t).z > OutOfView
    ensures forall k :: 0 <= k < i ==> g.rocks[k] == f.rocks[k] && g.spins[k] == f.spins[k]
    ensures |g.rocks| < |f.rocks| ==>
      g.rocks == Drop(f.rocks, i) && g.spins == Drop(f.spins, i)
    ensures |g.rocks| == |f.rocks| ==> g.spins == f.spins
  {
    var rock := Scrolled(f.rocks[i], t);
    var trails := if CometScroll(t) && i < |f.trails|
                  then f.trails[i := Follow(f.trails[i], rock.z, t.speed)] else f.trails;
    if rock.z <= OutOfView then
      Field(f.rocks[i := rock], f.spins, trails)
    else if (t.mode == 0 || t.mode == 2) && t.began then
      var back := Recycled(rock, draws[i]);
      Field(f.rocks[i := back], f.spins,
            if t.mode == 2 then trails[i := Rekindle(trails[i], back, i, emberDraw)] else trails)
    else if t.mode == 1 && t.began then
      Field(f.rocks[i := Returned(rock, draws[i])], f.spins, trails)
    else if !t.began then
      Field(Drop(f.rocks, i), Drop(f.spins, i), if i < |trails| then Drop(trails, i) else trails)
    else
      Field(f.rocks[i := rock], f.spins, trails)
  }

  /** The loop of `move` from index `i` on. The loop index moves on after
      a removal too, so the obstacle that slid into the freed slot waits
      until the next tick. */
  function SweepFrom(f: Field, i: nat, t: Tick, draws: seq<Respawn>, emberDraw: (int, int) -> real): (g: Field)
    requires Sweepable(f, t, draws)
    ensures Sweepable(g, t, draws)
    ensures |g.rocks| <= |f.rocks|
    ensures t.began ==> |g.rocks| == |f.rocks|
    decreases |f.rocks| - i
  {
    if i >= |f.rocks| then f else SweepFrom(Step(f, i, t, draws, emberDraw), i + 1, t, draws, emberDraw)
  }

  /** The sweep never touches the obstacles before the index it starts
      from. */
  lemma {:induction false} SweepKeepsPrefix(f: Field, i: nat, t: Tick, draws: seq<Respawn>,
                                            emberDraw: (int, int) -> real)
    requires Sweepable(f, t, draws)
    ensures var g := SweepFrom(f, i, t, draws, emberDraw);
      forall k :: 0 <= k < i && k < |f.rocks| ==> k < |g.rocks| && g.rocks[k] == f.rocks[k]
    decreases |f.rocks| - i
  {
    if i < |f.rocks| {
      var f' := Step(f, i, t, draws, emberDraw);
      SweepKeepsPrefix(f', i + 1, t, draws, emberDraw);
    }
  }

  /** When a draining sweep removes obstacle `i`, the obstacle behind it
      slides into slot `i` and is neither moved nor checked in that
      tick. */
  lemma DrainSkipsNext(f: Field, i: nat, t: Tick, draws: seq<Respawn>, emberDraw: (int, int) -> real)
    requires Sweepable(f, t, draws) && i + 1 < |f.rocks|
    requires !t.began && Scrolled(f.rocks[i], t).z > OutOfView
    ensures var g := SweepFrom(Step(f, i, t, draws, emberDraw), i + 1, t, draws, emberDraw);
      i < |g.rocks| && g.rocks[i] == f.rocks[i + 1]
  {
    var f' := Step(f, i, t, draws, emberDraw);
    assert f'.rocks == Drop(f.rocks, i);
    assert i < |f'.rocks| && f'.rocks[i] == f.rocks[i + 1];
    SweepKeepsPrefix(f', i + 1, t, draws, emberDraw);
    var g := SweepFrom(f', i + 1, t, draws, emberDraw);
    assert i < |g.rocks| && g.rocks[i] == f'.rocks[i];
  }

  /** Where the trail of comet `i` is after its step under the comet rule:
      while the comet is in view every particle lies within the reach
      behind it, with its scale in [0, 1]; a comet recycled this tick has
      its trail put between 500 and 8000 behind it, which can lie beyond
      the reach; a drained comet leaves with its trail. */
  lemma StepTrailBounds(f: Field, i: nat, t: Tick, draws: seq<Respawn>, emberDraw: (int, int) -> real)
    requires Sweepable(f, t, draws) && i < |f.rocks| && i < |f.trails| && CometScroll(t)
    requires forall j :: 0 <= j < |f.trails[i]| ==> Unit(emberDraw(i, j))
    ensures var g := Step(f, i, t, draws, emberDraw);
      var rock := Scrolled(f.rocks[i], t);
      && (rock.z <= OutOfView ==>
            && g.rocks[i] == rock && |g.trails[i]| == |f.trails[i]|
            && forall j :: 0 <= j < |g.trails[i]| ==>
                 && rock.z - TrailReach <= g.trails[i][j].z <= rock.z
                 && 0.0 <= g.trails[i][j].scale <= 1.0)
      && (rock.z > OutOfView && t.began ==>
            && |g.trails[i]| == |f.trails[i]|
            && forall j :: 0 <= j < |g.trails[i]| ==>
                 g.rocks[i].z - 8000.0 < g.trails[i][j].z <= g.rocks[i].z - 500.0)
      && (rock.z > OutOfView && !t.began ==>
            g.rocks == Drop(f.rocks, i) && g.trails == Drop(f.trails, i))
  {
    var rock := Scrolled(f.rocks[i], t);
    var followed := Follow(f.trails[i], rock.z, t.speed);
    var g := Step(f, i, t, draws, emberDraw);
    if rock.z <= OutOfView {
      assert g.trails[i] == followed;
    } else if t.began {
      var back := Recycled(rock, draws[i]);
      assert t.mode == 2 && g.rocks[i] == back;
      assert g.trails[i] == Rekindle(followed, back, i, emberDraw);
    }
  }

  // ---------------------------------------------------------------------
  // Rotation

  /** The levels whose obstacles turn about their own x, y or z axis. */
  predicate AxisTurn(t: Tick)
  {
    ((t.mode == 0 || t.mode == 2) && t.began) || ((t.mode == 1 || t.mode == 2) && !t.began)
  }

  /** The levels whose obstacles turn about the leaned axis: the solar
      system while it runs, and while it drains out before the asteroid
      field is placed (mode 0, not begun, last mode 1). */
  predicate LeanTurn(t: Tick)
  {
    (t.mode == 1 && t.began) || (t.lastMode == 1 && t.mode == 0 && !t.began)
  }

  /** One obstacle in `rotateObjects`: a tenth of its rate about the axis
      its rotation selects, or about the leaned axis. */
  function Turned(r: Rock, s: Spin, t: Tick): (q: Rock)
    ensures q.x == r.x && q.y == r.y && q.z == r.z && q.lean == r.lean
    ensures AxisTurn(t) && s.axis == 0 ==> q == r.(rx := r.rx + s.rate / 10.0)
    ensures AxisTurn(t) && s.axis == 1 ==> q == r.(ry := r.ry + s.rate / 10.0)
    ensures AxisTurn(t) && s.axis == 2 ==> q == r.(rz := r.rz + s.rate / 10.0)
    ensures !AxisTurn(t) && LeanTurn(t) ==> q == r.(turn := r.turn + s.rate / 10.0)
    ensures (AxisTurn(t) && !(0 <= s.axis <= 2)) || (!AxisTurn(t) && !LeanTurn(t)) ==> q == r
  {
    if AxisTurn(t) then
      if s.axis == 0 then r.(rx := r.rx + s.rate / 10.0)
      else if s.axis == 1 then r.(ry := r.ry + s.rate / 10.0)
      else if s.axis == 2 then r.(rz := r.rz + s.rate / 10.0)
      else r
    else if LeanTurn(t) then r.(turn := r.turn + s.rate / 10.0)
    else r
  }

  /** Which rule turns the obstacles in each level state. While a level
      has not begun, the obstacles on screen are those of the level before
      it, draining out. The asteroid field and the comet trail turn about
      an axis while they run, the solar system about the leaned axis; the
      asteroid field draining out before a challenge level (mode 1 or 2,
      not begun) turns about an axis; a challenge level draining out
      before the asteroid field (mode 0, not begun) turns about the leaned
      axis exactly when it is the solar system (last mode 1), and not at
      all when it is the comet trail. */
  lemma RotationTable(t: Tick)
    requires 0 <= t.mode <= 2
    ensures t.began && t.mode != 1 ==> AxisTurn(t)
    ensures t.began && t.mode == 1 ==> !AxisTurn(t) && LeanTurn(t)
    ensures !t.began && t.mode != 0 ==> AxisTurn(t)
    ensures !t.began && t.mode == 0 ==> !AxisTurn(t) && (LeanTurn(t) <==> t.lastMode == 1)
  {
  }

  /** `getCurrentStatus`: the name of the level. */
  function Status(mode: int): (r: Option<string>)
    ensures r.Some? <==> 0 <= mode <= 2
  {
    if mode == 0 then Some("ASTEROID FIELD")
    else if mode == 1 then Some("SOLAR SYSTEM")
    else if mode == 2 then Some("COMET TRAIL")
    else None
  }

  /** The three levels have three different names, so the status shown on
      the dash identifies the level. */
  lemma StatusIdentifiesLevel(m: int, n: int)
    requires Status(m).Some? && Status(m) == Status(n)
    ensures m == n
  {
  }

  // ---------------------------------------------------------------------
  // The obstacle field

  class Obstacles {
    var rocks: seq<Rock>
    var spins: seq<Spin>
    var trails: seq<seq<Ember>>
    var mode: int
    var lastMode: int
    /** `mode_began`: false while the previous level drains. */
    var began: bool
    /** `initial_obstacle_count` and `comet_count`. */
    var asteroidCount: int
    var cometCount: int

    ghost predicate Valid()
      reads this
    {
      && Aligned(Field(rocks, spins, trails))
      && (mode == 2 && began ==> |trails| == |rocks|)
      && 0 <= mode <= 2 && 0 <= lastMode <= 2
      && asteroidCount >= 1 && cometCount >= 1
    }

    function Current(): Field
      reads this
    {
      Field(rocks, spins, trails)
    }

    function Level(speed: real): Tick
      reads this
    {
      Tick(mode, began, lastMode, speed)
    }

    constructor ()
      ensures Valid()
      ensures rocks == [] && spins == [] && trails == []
      ensures mode == 0 && lastMode == 0 && began
      ensures asteroidCount == 10 && cometCount == 5
    {
      rocks, spins, trails := [], [], [];
      mode, lastMode, began := 0, 0, true;
      asteroidCount, cometCount := 10, 5;
    }

    /** `modeChanges`, at the whole second `now`: a challenge level that has
        run 20 seconds gives way to the asteroid field, which is placed once
        the challenge level's obstacles have drained out (mode 0, not begun,
        last mode the challenge level); after 40 seconds a random challenge
        level is chosen and placed once the asteroid field has drained out
        (mode 1 or 2, not begun, last mode 0), the hyperdrive gains a
        charge if it is not full, and the new start time `now` is
        returned; otherwise `lastTime` is. */
    method ModeChanges(lastTime: int, now: int, hyperdrive: HyperdriveSequencer.Hyperdrive, draw: real)
      returns (r: int)
      requires Valid() && Unit(draw)
      modifies this`mode, this`began, this`lastMode, hyperdrive`charge
      ensures Valid()
      ensures now >= lastTime + FieldSeconds ==>
        && r == now && (mode == 1 || mode == 2) && !began && lastMode == 0
        && hyperdrive.charge == (if old(hyperdrive.charge) < HyperdriveSequencer.FullCharge
                                 then old(hyperdrive.charge) + 1 else old(hyperdrive.charge))
      ensures now < lastTime + FieldSeconds ==> r == lastTime && hyperdrive.charge == old(hyperdrive.charge)
      ensures now < lastTime + FieldSeconds && old(mode) != 0 && now >= lastTime + ChallengeSeconds ==>
        && lastMode == old(mode)
        && (old(began) ==> mode == 0 && !began)
        && (!old(began) ==> mode == old(mode) && began == old(began))
      ensures now < lastTime + FieldSeconds && (old(mode) == 0 || now < lastTime + ChallengeSeconds) ==>
        mode == old(mode) && began == old(began) && lastMode == old(lastMode)
      ensures old(hyperdrive.charge) <= HyperdriveSequencer.FullCharge ==>
        hyperdrive.charge <= HyperdriveSequencer.FullCharge
    {
      if mode != 0 && now >= lastTime + ChallengeSeconds {
        lastMode := mode;
        if mode == 1 && began {
          mode := 0;
          began := false;
        } else if mode == 2 && began {
          mode := 0;
          began := false;
        }
      }
      if now >= lastTime + FieldSeconds {
        mode := Round(draw * 2.0 + 0.5);
        began := false;
        lastMode := 0;
        if hyperdrive.charge < HyperdriveSequencer.FullCharge {
          hyperdrive.IncrementCharge();
        }
        return now;
      }
      return lastTime;
    }

    /** `move`: every obstacle scrolls and is recycled or drained, all
        obstacles turn, and an empty field whose next level has not begun
        is repopulated for it. */
    method Move(speed: real, draws: seq<Respawn>, emberDraw: (int, int) -> real,
                asteroid: Rock, planets: seq<Rock>, seeds: seq<Seed>, planetSeeds: seq<PlanetSeed>,
                extraComet: real)
      requires Valid() && |draws| == |rocks|
      requires |seeds| >= asteroidCount && |seeds| >= cometCount && |planetSeeds| == PlanetCount
      requires mode == 1 ==> |planets| >= 1 && forall k :: 0 <= k < PlanetCount ==> Unit(planetSeeds[k].pick)
      modifies this`rocks, this`spins, this`trails, this`began, this`asteroidCount, this`cometCount
      ensures Valid() && mode == old(mode) && lastMode == old(lastMode)
      ensures old(began) ==> began && |rocks| == old(|rocks|)
      ensures !old(began) && !began ==> 0 < |rocks| <= old(|rocks|)
      ensures !old(began) && began ==>
        |rocks| == (if mode == 0 then old(asteroidCount) else if mode == 1 then PlanetCount else old(cometCount))
      ensures |spins| == |rocks|
      ensures var g := SweepFrom(old(Current()), 0, old(Level(speed)), draws, emberDraw);
        !(|g.rocks| == 0 && !old(began)) ==>
          && began == old(began) && asteroidCount == old(asteroidCount) && cometCount == old(cometCount)
          && spins == g.spins && trails == g.trails && |rocks| == |g.rocks|
          && forall i :: 0 <= i < |rocks| ==> rocks[i] == Turned(g.rocks[i], g.spins[i], old(Level(0.0)))
      ensures var g := SweepFrom(old(Current()), 0, old(Level(speed)), draws, emberDraw);
        |g.rocks| == 0 && !old(began) ==>
          Populated(asteroid, planets, seeds, planetSeeds, emberDraw, extraComet,
                    old(asteroidCount), old(cometCount), g.trails)
    {
      Sweep(speed, draws, emberDraw);
      RotateObjects();
      if |rocks| == 0 && !began {
        Repopulate(asteroid, planets, seeds, planetSeeds, emberDraw, extraComet);
      }
    }

    /** The obstacle loop of `move`. */
    method Sweep(speed: real, draws: seq<Respawn>, emberDraw: (int, int) -> real)
      requires Valid() && |draws| == |rocks|
      modifies this`rocks, this`spins, this`trails
      ensures Valid()
      ensures Current() == SweepFrom(old(Current()), 0, Level(speed), draws, emberDraw)
    {
      var t := Level(speed);
      var f := Current();
      var i := 0;
      while i < |f.rocks|
        invariant Sweepable(f, t, draws)
        invariant SweepFrom(f, i, t, draws, emberDraw) == SweepFrom(old(Current()), 0, t, draws, emberDraw)
        decreases |f.rocks| - i
      {
        f := Advance(f, i, t, draws, emberDraw);
        i := i + 1;
      }
      rocks, spins, trails := f.rocks, f.spins, f.trails;
    }

    /** `rotateObjects`. */
    method RotateObjects()
      requires Valid()
      modifies this`rocks
      ensures Valid()
      ensures |rocks| == old(|rocks|)
      ensures forall i :: 0 <= i < |rocks| ==> rocks[i] == Turned(old(rocks[i]), spins[i], Level(0.0))
    {
      var i := 0;
      while i < |rocks|
        invariant 0 <= i <= |rocks| == old(|rocks|) && Valid()
        invariant forall k :: 0 <= k < i ==> rocks[k] == Turned(old(rocks[k]), spins[k], Level(0.0))
        invariant forall k :: i <= k < |rocks| ==> rocks[k] == old(rocks[k])
      {
        rocks := rocks[i := Turned(rocks[i], spins[i], Level(0.0))];
        i := i + 1;
      }
    }

    /** The field the initialiser of the current level leaves behind, from
        asteroid and comet counts `n` and `c` and trails `ts` before it:
        `n` asteroids and the next count two higher; five planets from
        the picked meshes; or `c` comets with their trails and the next
        count one higher when `extraComet` is below 0.5. The level has
        begun. */
    ghost predicate Populated(asteroid: Rock, planets: seq<Rock>, seeds: seq<Seed>, planetSeeds: seq<PlanetSeed>,
                              emberDraw: (int, int) -> real, extraComet: real, n: int, c: int,
                              ts: seq<seq<Ember>>)
      reads this
    {
      && began
      && (mode == 0 ==>
            && asteroidCount == n + 2 && cometCount == c && trails == ts
            && |rocks| == n && |spins| == n && n <= |seeds|
            && forall i :: 0 <= i < n ==>
                 rocks[i] == Placed(asteroid, i, n, 2.0, seeds[i]) && spins[i] == SpinOf(seeds[i]))
      && (mode == 1 ==>
            && asteroidCount == n && cometCount == c && trails == ts
            && |rocks| == PlanetCount && |spins| == PlanetCount
            && |planets| >= 1 && |planetSeeds| == PlanetCount
            && forall i :: 0 <= i < PlanetCount ==>
                 && Unit(planetSeeds[i].pick)
                 && rocks[i] == PlanetPlaced(planets[PickOf(planetSeeds[i].pick, |planets|)], i, planetSeeds[i])
                 && spins[i] == Spin(planetSeeds[i].rate - 0.5, 1))
      && (mode == 2 ==>
            && asteroidCount == n && cometCount == (if extraComet < 0.5 then c + 1 else c)
            && |rocks| == c && |spins| == c && |trails| == c && c <= |seeds|
            && forall i :: 0 <= i < c ==>
                 && rocks[i] == Placed(asteroid, i, c, 1.0, seeds[i])
                 && spins[i] == SpinOf(seeds[i])
                 && |trails[i]| == TrailEmbers
                 && forall j :: 0 <= j < TrailEmbers ==>
                      trails[i][j] == Rekindled(Ember(0.0, 0.0, 0.0, 1.0), rocks[i], emberDraw(i, j)))
    }

    /** The last part of `move`: the initialiser of the level. */
    method Repopulate(asteroid: Rock, planets: seq<Rock>, seeds: seq<Seed>, planetSeeds: seq<PlanetSeed>,
                      emberDraw: (int, int) -> real, extraComet: real)
      requires Valid() && |rocks| == 0 && !began
      requires |seeds| >= asteroidCount && |seeds| >= cometCount && |planetSeeds| == PlanetCount
      requires mode == 1 ==> |planets| >= 1 && forall k :: 0 <= k < PlanetCount ==> Unit(planetSeeds[k].pick)
      modifies this`rocks, this`spins, this`trails, this`began, this`asteroidCount, this`cometCount
      ensures Valid() && began
      ensures mode == 0 ==> |rocks| == old(asteroidCount)
      ensures mode == 1 ==> |rocks| == PlanetCount
      ensures mode == 2 ==> |rocks| == old(cometCount)
      ensures Populated(asteroid, planets, seeds, planetSeeds, emberDraw, extraComet,
                        old(asteroidCount), old(cometCount), old(trails))
    {
      if mode == 2 {
        InitialiseCometTrail(asteroid, seeds[..cometCount], emberDraw, extraComet);
      }
      if mode == 1 {
        InitialisePlanetMode(planets, planetSeeds);
      }
      if mode == 0 {
        var _ := InitialiseAsteroids(asteroid, seeds[..asteroidCount]);
      }
    }

    /** `initialiseAsteroids` on the empty field: `initial_obstacle_count`
        asteroids spread over the lanes and rows, each further ahead than
        the last, after which the next field will hold two more. */
    method InitialiseAsteroids(asteroid: Rock, seeds: seq<Seed>) returns (ok: bool)
      requires Valid() && mode != 2 && |rocks| == 0 && |seeds| == asteroidCount
      modifies this`rocks, this`spins, this`began, this`asteroidCount
      ensures Valid() && began && ok
      ensures asteroidCount == old(asteroidCount) + 2
      ensures |rocks| == old(asteroidCount)
      ensures forall i :: 0 <= i < |rocks| ==>
        && rocks[i] == Placed(asteroid, i, old(asteroidCount), 2.0, seeds[i])
        && spins[i] == SpinOf(seeds[i])
    {
      began := true;
      var n := asteroidCount;
      var rs, ss := rocks, spins;
      var i := 0;
      while i < n
        invariant 0 <= i <= n && |rs| == |ss| == i
        invariant forall k :: 0 <= k < i ==>
          rs[k] == Placed(asteroid, k, n, 2.0, seeds[k]) && ss[k] == SpinOf(seeds[k])
      {
        rs := rs + [Placed(asteroid, i, n, 2.0, seeds[i])];
        ss := ss + [SpinOf(seeds[i])];
        i := i + 1;
      }
      rocks, spins := rs, ss;
      asteroidCount := asteroidCount + 2;
      return true;
    }

    /** `initialiseCometTrail` on the empty field: `comet_count` comets, each
        with ten trail particles behind it; half the time the next comet
        trail will hold one more. */
    method InitialiseCometTrail(asteroid: Rock, seeds: seq<Seed>, emberDraw: (int, int) -> real,
                                extra: real)
      requires Valid() && |rocks| == 0 && |seeds| == cometCount
      modifies this`rocks, this`spins, this`trails, this`began, this`cometCount
      ensures Valid() && began
      ensures cometCount == if extra < 0.5 then old(cometCount) + 1 else old(cometCount)
      ensures |rocks| == old(cometCount) && |trails| == |rocks|
      ensures forall i :: 0 <= i < |rocks| ==>
        && rocks[i] == Placed(asteroid, i, old(cometCount), 1.0, seeds[i])
        && spins[i] == SpinOf(seeds[i])
        && |trails[i]| == TrailEmbers
        && forall j :: 0 <= j < TrailEmbers ==>
             trails[i][j] == Rekindled(Ember(0.0, 0.0, 0.0, 1.0), rocks[i], emberDraw(i, j))
    {
      began := true;
      rocks, spins, trails := LaunchComets(asteroid, seeds, cometCount, emberDraw);
      if extra < 0.5 {
        cometCount := cometCount + 1;
      }
    }

    /** `initialisePlanetMode` on the empty field: five planets, each a
        clone of a randomly picked planet mesh, with a leaned-axis
        rotation. */
    method InitialisePlanetMode(planets: seq<Rock>, seeds: seq<PlanetSeed>)
      requires Valid() && mode != 2 && |rocks| == 0 && |planets| >= 1 && |seeds| == PlanetCount
      requires forall k :: 0 <= k < PlanetCount ==> Unit(seeds[k].pick)
      modifies this`rocks, this`spins, this`began
      ensures Valid() && began
      ensures |rocks| == PlanetCount
      ensures forall i :: 0 <= i < PlanetCount ==>
        && rocks[i] == PlanetPlaced(planets[PickOf(seeds[i].pick, |planets|)], i, seeds[i])
        && spins[i] == Spin(seeds[i].rate - 0.5, 1)
    {
      began := true;
      var rs, ss := rocks, spins;
      var i := 0;
      while i < PlanetCount
        invariant 0 <= i <= PlanetCount && |rs| == |ss| == i
        invariant forall k :: 0 <= k < i ==>
          && rs[k] == PlanetPlaced(planets[PickOf(seeds[k].pick, |planets|)], k, seeds[k])
          && ss[k] == Spin(seeds[k].rate - 0.5, 1)
      {
        var mesh := planets[PickOf(seeds[i].pick, |planets|)];
        rs := rs + [PlanetPlaced(mesh, i, seeds[i])];
        ss := ss + [Spin(seeds[i].rate - 0.5, 1)];
        i := i + 1;
      }
      rocks, spins := rs, ss;
    }

    /** `moveOutOfView`: every obstacle and trail particle goes 55000
        back. */
    method MoveOutOfView()
      requires Valid()
      modifies this`rocks, this`trails
      ensures Valid()
      ensures |rocks| == old(|rocks|) && |trails| == old(|trails|)
      ensures forall i :: 0 <= i < |rocks| ==> rocks[i] == old(rocks[i]).(z := old(rocks[i].z) - 55000.0)
      ensures forall i :: 0 <= i < |trails| ==> trails[i] == Withdrawn(old(trails[i]))
    {
      var i := 0;
      while i < |rocks|
        invariant 0 <= i <= |rocks| == old(|rocks|) && |trails| == old(|trails|) && Valid()
        invariant spins == old(spins)
        invariant forall k :: 0 <= k < i ==> rocks[k] == old(rocks[k]).(z := old(rocks[k].z) - 55000.0)
        invariant forall k :: i <= k < |rocks| ==> rocks[k] == old(rocks[k])
        invariant forall k :: 0 <= k < i && k < |trails| ==> trails[k] == Withdrawn(old(trails[k]))
        invariant forall k :: i <= k < |trails| ==> trails[k] == old(trails[k])
      {
        rocks := rocks[i := rocks[i].(z := rocks[i].z - 55000.0)];
        if i < |trails| {
          var w := WithdrawTrail(trails[i]);
          trails := trails[i := w];
        }
        i := i + 1;
      }
    }

    /** `reset`: an empty asteroid field that has begun, with sixteen
        asteroids to come and five comets. */
    method Reset()
      modifies this`rocks, this`spins, this`trails, this`mode, this`began, this`lastMode,
               this`asteroidCount, this`cometCount
      ensures Valid()
      ensures rocks == [] && spins == [] && trails == []
      ensures mode == 0 && began && lastMode == 0
      ensures asteroidCount == 16 && cometCount == 5
    {
      rocks := [];
      spins := [];
      mode := 0;
      began := true;
      trails := [];
      lastMode := 0;
      asteroidCount := 16;
      cometCount := 5;
    }

    function CurrentStatus(): (r: Option<string>)
      requires Valid()
      reads this
      ensures r.Some? && r == Status(mode)
    {
      Status(mode)
    }
  }

  /** A trail 55000 further back. */
  function Withdrawn(trail: seq<Ember>): (u: seq<Ember>)
  {
    seq(|trail|, j requires 0 <= j < |trail| => trail[j].(z := trail[j].z - 55000.0))
  }

  // ---------------------------------------------------------------------
  // The loops over a trail, and one obstacle's loop body

  /** The particle loop of `moveOutOfView`. */
  method WithdrawTrail(trail: seq<Ember>) returns (u: seq<Ember>)
    ensures u == Withdrawn(trail)
  {
    u := trail;
    var j := 0;
    while j < |u|
      invariant 0 <= j <= |u| == |trail|
      invariant forall k :: 0 <= k < j ==> u[k] == trail[k].(z := trail[k].z - 55000.0)
      invariant forall k :: j <= k < |u| ==> u[k] == trail[k]
    {
      u := u[j := u[j].(z := u[j].z - 55000.0)];
      j := j + 1;
    }
  }

  /** The comet loop of `initialiseCometTrail`. */
  method LaunchComets(asteroid: Rock, seeds: seq<Seed>, n: int, emberDraw: (int, int) -> real)
    returns (rs: seq<Rock>, ss: seq<Spin>, ts: seq<seq<Ember>>)
    requires n >= 1 && |seeds| == n
    ensures |rs| == |ss| == |ts| == n
    ensures forall i :: 0 <= i < n ==>
      && rs[i] == Placed(asteroid, i, n, 1.0, seeds[i])
      && ss[i] == SpinOf(seeds[i])
      && |ts[i]| == TrailEmbers
      && forall j :: 0 <= j < TrailEmbers ==>
           ts[i][j] == Rekindled(Ember(0.0, 0.0, 0.0, 1.0), rs[i], emberDraw(i, j))
  {
    rs, ss, ts := [], [], [];
    var i := 0;
    while i < n
      invariant 0 <= i <= n && |rs| == |ss| == |ts| == i
      invariant forall k :: 0 <= k < i ==>
        && rs[k] == Placed(asteroid, k, n, 1.0, seeds[k])
        && ss[k] == SpinOf(seeds[k])
        && |ts[k]| == TrailEmbers
        && forall j :: 0 <= j < TrailEmbers ==>
             ts[k][j] == Rekindled(Ember(0.0, 0.0, 0.0, 1.0), rs[k], emberDraw(k, j))
    {
      var comet := Placed(asteroid, i, n, 1.0, seeds[i]);
      var trail := Ignite(comet, i, emberDraw);
      rs, ss, ts := rs + [comet], ss + [SpinOf(seeds[i])], ts + [trail];
      i := i + 1;
    }
  }

  /** The particle loop of `initialiseCometTrail`. */
  method Ignite(comet: Rock, i: int, emberDraw: (int, int) -> real) returns (trail: seq<Ember>)
    ensures |trail| == TrailEmbers
    ensures forall j :: 0 <= j < TrailEmbers ==>
      trail[j] == Rekindled(Ember(0.0, 0.0, 0.0, 1.0), comet, emberDraw(i, j))
  {
    trail := [];
    var j := 0;
    while j < TrailEmbers
      invariant 0 <= j <= TrailEmbers && |trail| == j
      invariant forall k :: 0 <= k < j ==>
        trail[k] == Rekindled(Ember(0.0, 0.0, 0.0, 1.0), comet, emberDraw(i, k))
    {
      trail := trail + [Rekindled(Ember(0.0, 0.0, 0.0, 1.0), comet, emberDraw(i, j))];
      j := j + 1;
    }
  }

  /** The trail loop of `move` under the comet rule. */
  method FollowComet(trail: seq<Ember>, parentZ: real, speed: real) returns (u: seq<Ember>)
    ensures u == Follow(trail, parentZ, speed)
  {
    u := trail;
    var j := 0;
    while j < |u|
      invariant 0 <= j <= |u| == |trail|
      invariant forall k :: 0 <= k < j ==> u[k] == Trailed(trail[k], parentZ, speed)
      invariant forall k :: j <= k < |u| ==> u[k] == trail[k]
    {
      u := u[j := Trailed(u[j], parentZ, speed)];
      j := j + 1;
    }
  }

  /** The trail loop of a recycled comet. */
  method RekindleTrail(trail: seq<Ember>, rock: Rock, i: int, emberDraw: (int, int) -> real)
    returns (u: seq<Ember>)
    ensures u == Rekindle(trail, rock, i, emberDraw)
  {
    u := trail;
    var j := 0;
    while j < |u|
      invariant 0 <= j <= |u| == |trail|
      invariant forall k :: 0 <= k < j ==> u[k] == Rekindled(trail[k], rock, emberDraw(i, k))
      invariant forall k :: j <= k < |u| ==> u[k] == trail[k]
    {
      u := u[j := Rekindled(u[j], rock, emberDraw(i, j))];
      j := j + 1;
    }
  }

  /** The body of the obstacle loop of `move`, with its trail loops. */
  method Advance(f: Field, i: nat, t: Tick, draws: seq<Respawn>, emberDraw: (int, int) -> real)
    returns (g: Field)
    requires Sweepable(f, t, draws) && i < |f.rocks|
    ensures g == Step(f, i, t, draws, emberDraw)
  {
    var rock := Scrolled(f.rocks[i], t);
    var trails := f.trails;
    if CometScroll(t) && i < |trails| {
      var u := FollowComet(trails[i], rock.z, t.speed);
      trails := trails[i := u];
    }
    if rock.z <= OutOfView {
      g := Field(f.rocks[i := rock], f.spins, trails);
    } else if (t.mode == 0 || t.mode == 2) && t.began {
      var back := Recycled(rock, draws[i]);
      if t.mode == 2 {
        var u := RekindleTrail(trails[i], back, i, emberDraw);
        trails := trails[i := u];
      }
      g := Field(f.rocks[i := back], f.spins, trails);
    } else if t.mode == 1 && t.began {
      g := Field(f.rocks[i := Returned(rock, draws[i])], f.spins, trails);
    } else if !t.began {
      var rocks := Drop(f.rocks, i);
      var spins := Drop(f.spins, i);
      if i < |trails| {
        trails := Drop(trails, i);
      }
      g := Field(rocks, spins, trails);
    } else {
      g := Field(f.rocks[i := rock], f.spins, trails);
    }
  }
}
