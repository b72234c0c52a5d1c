// The particle burst pool (components/ParticleSystem.tsx): a fixed array of 100
// particles. `trigger` claims free particles (life <= 0) in index order; every
// frame ages the live ones and reports how each instance is drawn.
module Particles {
  import opened Types

  const PARTICLE_COUNT: nat := 100
  /** Where a hidden particle is parked. */
  const HIDDEN_Y: real := -100.0
  /** Launch speeds are drawn from [-SPREAD/2, SPREAD/2) on each axis. */
  const SPREAD: real := 5.0
  /** A claimed particle lives between MIN_LIFE and 2 * MIN_LIFE seconds. */
  const MIN_LIFE: real := 0.5
  /** The downward pull on particles. */
  const PARTICLE_GRAVITY: real := 2.0

  datatype Vec3 = Vec3(x: real, y: real, z: real)

  /** A three.js colour as its red, green and blue channels. */
  datatype Color = Color(r: real, g: real, b: real)

  const WHITE: Color := Color(1.0, 1.0, 1.0)
  const HIDDEN_POSITION: Vec3 := Vec3(0.0, HIDDEN_Y, 0.0)

  datatype Particle = Particle(position: Vec3, velocity: Vec3, life: real, initialLife: real, color: Color)

  /** A pool particle before its first use: parked off-screen, dead, initial life 1. */
  const FRESH_PARTICLE: Particle := Particle(HIDDEN_POSITION, Vec3(0.0, 0.0, 0.0), 0.0, 1.0, WHITE)

  /** The four random numbers one claimed particle consumes, in call order. */
  datatype Roll = Roll(vx: real, vy: real, vz: real, life: real)

  predicate Unit(r: real)
  {
    0.0 <= r < 1.0
  }

  predicate ValidRoll(r: Roll)
  {
    Unit(r.vx) && Unit(r.vy) && Unit(r.vz) && Unit(r.life)
  }

  /** A random launch speed on one axis. */
  function Launch(r: real): (v: real)
    requires Unit(r)
    ensures -SPREAD / 2.0 <= v < SPREAD / 2.0
  {
    (r - 0.5) * SPREAD
  }

  /** The particle a claim produces from `roll`. */
  function Spawn(position: Vec3, color: Color, roll: Roll): (p: Particle)
    requires ValidRoll(roll)
    ensures p.position == position && p.color == color
    ensures MIN_LIFE <= p.life < 2.0 * MIN_LIFE && p.initialLife == p.life
    ensures -SPREAD / 2.0 <= p.velocity.x < SPREAD / 2.0
    ensures -SPREAD / 2.0 <= p.velocity.y < SPREAD / 2.0
    ensures -SPREAD / 2.0 <= p.velocity.z < SPREAD / 2.0
  {
    var life := roll.life * MIN_LIFE + MIN_LIFE;
    Particle(position, Vec3(Launch(roll.vx), Launch(roll.vy), Launch(roll.vz)), life, life, color)
  }

  predicate Free(p: Particle)
  {
    p.life <= 0.0
  }

  /** The number of free particles among the first `i`. */
  function FreeBefore(ps: seq<Particle>, i: nat): (n: nat)
    requires i <= |ps|
    ensures n <= i
  {
    if i == 0 then 0 else FreeBefore(ps, i - 1) + (if Free(ps[i - 1]) then 1 else 0)
  }

  /** Particle i is claimed by `trigger(_, _, count)`: it is free and fewer than `count`
      free particles precede it. */
  predicate Claimed(ps: seq<Particle>, i: nat, count: int)
    requires i < |ps|
  {
    Free(ps[i]) && FreeBefore(ps, i) < count
  }

  /** Particle i after `trigger`: the j-th claimed particle is spawned from rolls[j]. */
  function TriggeredAt(ps: seq<Particle>, i: nat, position: Vec3, color: Color, count: int, rolls: seq<Roll>): Particle
    requires i < |ps| && |rolls| >= count
    requires forall j :: 0 <= j < |rolls| ==> ValidRoll(rolls[j])
  {
    if Claimed(ps, i, count) then Spawn(position, color, rolls[FreeBefore(ps, i)]) else ps[i]
  }

  /** The whole pool after `trigger(position, color, count)`. */
  function Triggered(ps: seq<Particle>, position: Vec3, color: Color, count: int, rolls: seq<Roll>): (r: seq<Particle>)
    requires |rolls| >= count
    requires forall j :: 0 <= j < |rolls| ==> ValidRoll(rolls[j])
    ensures |r| == |ps|
    ensures forall i :: 0 <= i < |ps| ==> r[i] == TriggeredAt(ps, i, position, color, count, rolls)
  {
    seq(|ps|, i requires 0 <= i < |ps| => TriggeredAt(ps, i, position, color, count, rolls))
  }

  /** How many of the first `i` particles a trigger claims. */
  function ClaimedBefore(ps: seq<Particle>, i: nat, count: int): (n: nat)
    requires i <= |ps|
  {
    if i == 0 then 0 else ClaimedBefore(ps, i - 1, count) + (if Claimed(ps, i - 1, count) then 1 else 0)
  }

  function MinCount(count: int, free: nat): nat
  {
    if count <= 0 then 0 else if count <= free then count else free
  }

  /** A trigger claims exactly min(count, free) particles: as many as asked for, or every free one. */
  lemma {:induction false} ClaimsMinOfCountAndFree(ps: seq<Particle>, i: nat, count: int)
    requires i <= |ps|
    ensures ClaimedBefore(ps, i, count) == MinCount(count, FreeBefore(ps, i))
  {
    if i > 0 {
      ClaimsMinOfCountAndFree(ps, i - 1, count);
    }
  }

  /** The free count never drops along the pool, and rises past every free particle. */
  lemma {:induction false} FreeBeforeGrows(ps: seq<Particle>, i: nat, j: nat)
    requires i <= j <= |ps|
    ensures FreeBefore(ps, i) <= FreeBefore(ps, j)
    ensures i < j && Free(ps[i]) ==> FreeBefore(ps, i) < FreeBefore(ps, j)
  {
    if i < j {
      FreeBeforeGrows(ps, i, j - 1);
    }
  }

  /** Free particles are claimed in ascending index order: a free particle before a
      claimed one is claimed too. */
  lemma ClaimedInOrder(ps: seq<Particle>, i: nat, j: nat, count: int)
    requires i < j < |ps|
    requires Claimed(ps, j, count) && Free(ps[i])
    ensures Claimed(ps, i, count)
  {
    FreeBeforeGrows(ps, i, j);
  }

  /** One particle after a frame of `delta` seconds: a live one loses `delta` of life,
      is pulled down and moves along its new velocity; a dead one is left alone. */
  function Aged(p: Particle, delta: real): (q: Particle)
    ensures p.life > 0.0 ==> q.life == p.life - delta && q.velocity.y == p.velocity.y - PARTICLE_GRAVITY * delta
    ensures p.life > 0.0 ==> q.initialLife == p.initialLife && q.color == p.color
    ensures p.life <= 0.0 ==> q == p
  {
    if p.life > 0.0 then
      var v := p.velocity.(y := p.velocity.y - PARTICLE_GRAVITY * delta);
      var pos := Vec3(p.position.x + v.x * delta, p.position.y + v.y * delta, p.position.z + v.z * delta);
      Particle(pos, v, p.life - delta, p.initialLife, p.color)
    else
      p
  }

  /** How one instance is drawn this frame: at its position, shrinking with its
      remaining life, or parked off-screen at full size when dead. */
  datatype Instance = Instance(position: Vec3, scale: real)

  function Shown(p: Particle, delta: real): (s: Instance)
    requires p.initialLife > 0.0
    ensures s.scale >= 0.0
    ensures p.life <= 0.0 ==> s == Instance(HIDDEN_POSITION, 1.0)
    ensures p.life > 0.0 && p.life <= p.initialLife && delta >= 0.0 ==> s.scale <= 1.0
    ensures p.life > 0.0 && p.life <= delta ==> s.scale == 0.0
  {
    if p.life > 0.0 then
      var q := Aged(p, delta);
      FractionAtMostOne(q.life, p.initialLife);
      Instance(q.position, Max(0.0, q.life / p.initialLife))
    else
      Instance(HIDDEN_POSITION, 1.0)
  }

  /** A part of a positive whole is at most the whole. */
  lemma FractionAtMostOne(a: real, b: real)
    requires b > 0.0
    ensures a <= b ==> a / b <= 1.0
  {
    if a <= b {
      var r := a / b;
      assert r * b == a;
      assert (r - 1.0) * b <= 0.0;
    }
  }

  class ParticlePool {
    const particles: array<Particle>

    /** The pool has its fixed size and every initial life is positive, so the
        scale division is always defined. */
    ghost predicate Valid()
      reads this, particles
    {
      particles.Length == PARTICLE_COUNT
      && forall i :: 0 <= i < particles.Length ==> particles[i].initialLife > 0.0
    }

    constructor ()
      ensures Valid() && fresh(particles)
      ensures forall i :: 0 <= i < PARTICLE_COUNT ==> particles[i] == FRESH_PARTICLE
    {
      var temp := new Particle[PARTICLE_COUNT];
      for i := 0 to PARTICLE_COUNT
        invariant forall k :: 0 <= k < i ==> temp[k] == FRESH_PARTICLE
      {
        temp[i] := FRESH_PARTICLE;
      }
      particles := temp;
    }

    /** trigger: walks the pool in index order, spawning a particle at `position` in
        every free slot until `count` have been spawned. */
    method Trigger(position: Vec3, color: Color, count: int, rolls: seq<Roll>)
      requires Valid()
      requires |rolls| >= count && forall j :: 0 <= j < |rolls| ==> ValidRoll(rolls[j])
      modifies particles
      ensures Valid()
      ensures forall i :: 0 <= i < PARTICLE_COUNT ==>
        particles[i] == TriggeredAt(old(particles[..]), i, position, color, count, rolls)
      ensures particles[..] == Triggered(old(particles[..]), position, color, count, rolls)
    {
      ghost var before := particles[..];
      var triggeredCount := 0;
      var i := 0;
      while i < PARTICLE_COUNT && triggeredCount < count
        invariant 0 <= i <= PARTICLE_COUNT
        invariant triggeredCount == FreeBefore(before, i)
        invariant forall k :: 0 <= k < i ==> particles[k] == TriggeredAt(before, k, position, color, count, rolls)
        invariant forall k :: i <= k < PARTICLE_COUNT ==> particles[k] == before[k]
        invariant Valid()
      {
        if particles[i].life <= 0.0 {
          particles[i] := Spawn(position, color, rolls[triggeredCount]);
          triggeredCount := triggeredCount + 1;
        }
        i := i + 1;
      }
      // every particle the loop did not reach is preceded by at least `count` free ones
      forall k | i <= k < PARTICLE_COUNT
        ensures particles[k] == TriggeredAt(before, k, position, color, count, rolls)
      {
        FreeBeforeGrows(before, i, k);
      }
    }

    /** The per-frame update: ages every live particle by `delta` and reports how each
        instance is drawn. */
    method Tick(delta: real) returns (instances: seq<Instance>)
      requires Valid()
      modifies particles
      ensures Valid()
      ensures |instances| == PARTICLE_COUNT
      ensures forall i :: 0 <= i < PARTICLE_COUNT ==>
        particles[i] == Aged(old(particles[i]), delta) && instances[i] == Shown(old(particles[i]), delta)
    {
      instances := [];
      for i := 0 to PARTICLE_COUNT
        invariant |instances| == i
        invariant forall k :: 0 <= k < i ==>
          particles[k] == Aged(old(particles[k]), delta) && instances[k] == Shown(old(particles[k]), delta)
        invariant forall k :: i <= k < PARTICLE_COUNT ==> particles[k] == old(particles[k])
        invariant Valid()
      {
        var p := particles[i];
        if p.life > 0.0 {
          var q := Aged(p, delta);
          particles[i] := q;
          instances := instances + [Instance(q.position, Max(0.0, q.life / p.initialLife))];
        } else {
          instances := instances + [Instance(HIDDEN_POSITION, 1.0)];
        }
      }
    }
  }

  /** A trigger never touches a live particle. */
  lemma TriggerSparesLive(ps: seq<Particle>, i: nat, position: Vec3, color: Color, count: int, rolls: seq<Roll>)
    requires i < |ps| && |rolls| >= count
    requires forall j :: 0 <= j < |rolls| ==> ValidRoll(rolls[j])
    requires ps[i].life > 0.0
    ensures TriggeredAt(ps, i, position, color, count, rolls) == ps[i]
  {
  }

  /** After a trigger, the claimed particles are exactly the free ones that came alive:
      claimed ones sit at `position` with life in [0.5, 1) and initialLife equal to it,
      the other free ones stay dead. */
  lemma TriggerActivates(ps: seq<Particle>, i: nat, position: Vec3, color: Color, count: int, rolls: seq<Roll>)
    requires i < |ps| && |rolls| >= count
    requires forall j :: 0 <= j < |rolls| ==> ValidRoll(rolls[j])
    requires Free(ps[i])
    ensures var q := TriggeredAt(ps, i, position, color, count, rolls);
      (q.life > 0.0 <==> Claimed(ps, i, count))
      && (Claimed(ps, i, count) ==>
            q.position == position && q.color == color && MIN_LIFE <= q.life < 2.0 * MIN_LIFE && q.initialLife == q.life)
  {
  }
}
