/** The hyperdrive sequencer of `Solution/hyperdrive.js`: a charge counter,
    and a 300-frame sequence that spins the car, streams a tunnel of
    particles past it and then gives the car back the speed it had when
    the sequence started. The particles' x and y (cosines and sines of
    their angles) are left out; their depth, angle and visibility are
    modelled. `Math.random()` draws are supplied by the caller. */
module HyperdriveSequencer {
  import opened Common
  import opened Effects

  /** `hyperdrive_frames`, `particle_count` and `full_hyperdrive_charge`. */
  const Frames: int := 300
  const ParticleCount: int := 100
  const FullCharge: int := 2

  /** The value `iterate` returns while the sequence runs. */
  const CruiseSpeed: real := 2500.0

  /** The roll added to the car on every frame of the sequence before
      the last: a 150th of a turn. */
  const RollStep: real := (4.0 * PI) / 300.0

  /** One tunnel particle: its depth, its angle around the car and
      whether it is shown. */
  datatype Streak = Streak(z: real, angle: real, visible: bool)

  /** The two draws that place a particle: the angle, then the depth. */
  datatype Placement = Placement(angle: real, depth: real)

  predicate Drawn(d: Placement)
  {
    Unit(d.angle) && Unit(d.depth)
  }

  /** A particle placed by `randomiseParticles` around a car at depth
      `carZ`: between 10000 and 60000 in front of the car. */
  function Scattered(p: Streak, carZ: real, d: Placement): (q: Streak)
    ensures q.visible == p.visible
    ensures Drawn(d) ==> carZ - 60000.0 < q.z <= carZ - 10000.0
    ensures Drawn(d) ==> 0.0 <= q.angle < 2.0 * PI
  {
    p.(z := carZ - 10000.0 - d.depth * 50000.0, angle := d.angle * PI * 2.0)
  }

  /** One frame of a particle in `iterate`: it comes a third of the car's
      speed closer; once past z = 1000 it is sent back between 50000 and
      55000 with a new angle, and otherwise its angle turns by its depth
      over 100000. */
  function Streamed(p: Streak, speed: real, d: Placement): (q: Streak)
    ensures q.visible == p.visible
    ensures p.z + speed / 3.0 > 1000.0 && Drawn(d) ==>
      p.z + speed / 3.0 - 55000.0 < q.z <= p.z + speed / 3.0 - 50000.0
    ensures p.z + speed / 3.0 <= 1000.0 ==> q.z == p.z + speed / 3.0 <= 1000.0
    ensures p.z + speed / 3.0 <= 1000.0 ==> q.angle == p.angle + q.z / 100000.0
  {
    var z := p.z + speed / 3.0;
    if z > 1000.0 then p.(z := z - (50000.0 + d.depth * 5000.0), angle := d.angle * PI * 2.0)
    else p.(z := z, angle := p.angle + z / 100000.0)
  }

  class Hyperdrive {
    var active: bool
    /** `hyperdrive_current_frame`. */
    var frame: int
    /** `start_speed`: None until the first `start`. */
    var startSpeed: Option<real>
    var particles: seq<Streak>
    /** `current_hyperdrive_charge`. */
    var charge: int
    var postprocessing: bool

    constructor ()
      ensures !active && frame == 0 && startSpeed.None? && particles == []
      ensures charge == 0 && !postprocessing
    {
      active := false;
      frame := 0;
      startSpeed := None;
      particles := [];
      charge := 0;
      postprocessing := false;
    }

    /** The particle part of `initialise`: slots 0 to 99 get hidden
        particles; any particles beyond them stay. */
    method Initialise()
      modifies this`particles
      ensures |particles| == if old(|particles|) > ParticleCount then old(|particles|) else ParticleCount
      ensures forall i :: 0 <= i < ParticleCount ==> particles[i] == Streak(0.0, 0.0, false)
      ensures forall i :: ParticleCount <= i < |particles| ==> particles[i] == old(particles[i])
    {
      var ps := particles;
      var i := 0;
      while i < ParticleCount
        invariant 0 <= i <= ParticleCount
        invariant |ps| == if |particles| > i then |particles| else i
        invariant forall k :: 0 <= k < i ==> ps[k] == Streak(0.0, 0.0, false)
        invariant forall k :: i <= k < |ps| ==> ps[k] == particles[k]
      {
        ps := Put(ps, i, Streak(0.0, 0.0, false));
        i := i + 1;
      }
      particles := ps;
    }

    method TogglePostprocessing()
      modifies this`postprocessing
      ensures postprocessing == !old(postprocessing)
    {
      postprocessing := !postprocessing;
    }

    function IsActive(): bool
      reads this
    {
      active
    }

    method SetActive(a: bool)
      modifies this`active
      ensures active == a
    {
      active := a;
    }

    method ClearCharge()
      modifies this`charge
      ensures charge == 0
    {
      charge := 0;
    }

    /** Adds one to the charge; the cap at `FullCharge` is the caller's. */
    method IncrementCharge()
      modifies this`charge
      ensures charge == old(charge) + 1
    {
      charge := charge + 1;
    }

    /** `start`: the sequence is active from frame 0, remembers the car's
        speed, shows every particle scattered in front of the car at
        depth `carZ`, and adds the colour pass when post-processing is
        on. */
    method Start(composer: Composer, carZ: real, speed: real, draws: seq<Placement>)
      requires |particles| == ParticleCount && |draws| == ParticleCount
      modifies this`active, this`frame, this`startSpeed, this`particles, composer
      ensures active && frame == 0 && startSpeed == Some(speed)
      ensures |particles| == ParticleCount
      ensures forall i :: 0 <= i < ParticleCount ==>
        particles[i] == Scattered(old(particles[i]).(visible := true), carZ, draws[i])
      ensures composer.passes == if postprocessing then old(composer.passes) + [ColourPass]
                                 else old(composer.passes)
    {
      active := true;
      frame := 0;
      startSpeed := Some(speed);
      particles := Reveal(particles, true);
      if postprocessing {
        composer.AddPass(ColourPass);
      }
      particles := Scatter(particles, carZ, draws);
    }

    /** `end`: the sequence stops, the charge is spent, the particles are
        hidden, the colour pass is taken out when post-processing is on,
        and the speed remembered by `start` is returned. */
    method End(composer: Composer) returns (r: Option<real>)
      modifies this`active, this`charge, this`particles, composer
      ensures r == startSpeed
      ensures !active && charge == 0
      ensures |particles| == old(|particles|)
      ensures forall i :: 0 <= i < |particles| ==> particles[i] == old(particles[i]).(visible := false)
      ensures composer.passes == if postprocessing then Without(old(composer.passes), ColourPass)
                                 else old(composer.passes)
    {
      active := false;
      charge := 0;
      particles := Reveal(particles, false);
      if postprocessing {
        composer.RemovePass(ColourPass);
      }
      r := startSpeed;
    }

    /** `iterate`: one frame. The 300th frame after `start` ends the
        sequence and returns the remembered speed; every earlier frame
        returns 2500, rolls the car (and the camera, which copies the
        car's roll) by a 150th of a turn and streams the particles. */
    method Iterate(composer: Composer, roll: real, speed: real, draws: seq<Placement>)
      returns (r: Option<real>, newRoll: real)
      requires |draws| == |particles|
      modifies this`frame, this`active, this`charge, this`particles, composer
      ensures frame == old(frame) + 1
      ensures |particles| == old(|particles|)
      ensures frame >= Frames ==>
        && r == startSpeed && !active && charge == 0 && newRoll == roll
        && (forall i :: 0 <= i < |particles| ==> particles[i] == old(particles[i]).(visible := false))
        && composer.passes == if postprocessing then Without(old(composer.passes), ColourPass)
                              else old(composer.passes)
      ensures frame < Frames ==>
        && r == Some(CruiseSpeed) && newRoll == roll + RollStep
        && active == old(active) && charge == old(charge) && composer.passes == old(composer.passes)
        && (forall i :: 0 <= i < |particles| ==> particles[i] == Streamed(old(particles[i]), speed, draws[i]))
    {
      frame := frame + 1;
      if frame >= Frames {
        r := End(composer);
        newRoll := roll;
        return;
      }
      newRoll := roll + (4.0 * PI) / (Frames as real);
      particles := Stream(particles, speed, draws);
      r := Some(CruiseSpeed);
    }
  }

  /** The visibility loops of `start` and `end`. */
  method Reveal(ps: seq<Streak>, visible: bool) returns (qs: seq<Streak>)
    ensures |qs| == |ps|
    ensures forall i :: 0 <= i < |ps| ==> qs[i] == ps[i].(visible := visible)
  {
    qs := ps;
    var i := 0;
    while i < |qs|
      invariant 0 <= i <= |qs| == |ps|
      invariant forall k :: 0 <= k < i ==> qs[k] == ps[k].(visible := visible)
      invariant forall k :: i <= k < |qs| ==> qs[k] == ps[k]
    {
      qs := qs[i := qs[i].(visible := visible)];
      i := i + 1;
    }
  }

  /** The loop of `randomiseParticles`. */
  method Scatter(ps: seq<Streak>, carZ: real, draws: seq<Placement>) returns (qs: seq<Streak>)
    requires |ps| == ParticleCount && |draws| == ParticleCount
    ensures |qs| == ParticleCount
    ensures forall i :: 0 <= i < ParticleCount ==> qs[i] == Scattered(ps[i], carZ, draws[i])
  {
    qs := ps;
    var i := 0;
    while i < ParticleCount
      invariant 0 <= i <= ParticleCount == |qs|
      invariant forall k :: 0 <= k < i ==> qs[k] == Scattered(ps[k], carZ, draws[k])
      invariant forall k :: i <= k < ParticleCount ==> qs[k] == ps[k]
    {
      qs := qs[i := Scattered(qs[i], carZ, draws[i])];
      i := i + 1;
    }
  }

  /** The particle loop of `iterate`. */
  method Stream(ps: seq<Streak>, speed: real, draws: seq<Placement>) returns (qs: seq<Streak>)
    requires |draws| == |ps|
    ensures |qs| == |ps|
    ensures forall i :: 0 <= i < |ps| ==> qs[i] == Streamed(ps[i], speed, draws[i])
  {
    qs := ps;
    var i := 0;
    while i < |qs|
      invariant 0 <= i <= |qs| == |ps|
      invariant forall k :: 0 <= k < i ==> qs[k] == Streamed(ps[k], speed, draws[k])
      invariant forall k :: i <= k < |qs| ==> qs[k] == ps[k]
    {
      qs := qs[i := Streamed(qs[i], speed, draws[i])];
      i := i + 1;
    }
  }
}
