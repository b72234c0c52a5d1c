// The per-frame simulation (components/Scene.tsx): gravity and flaps for the two
// UFOs, collision checks against the pipe pool, particle bursts for pickups, the
// scrolling of the pool, and the replay of the last recording by the ghost UFO.
module SceneSim {
  import opened Types
  import opened Levels
  import opened Pipes
  import Particles

  const GRAVITY: real := -30.0
  const FLAP_POWER: real := 8.0
  const UFO_RADIUS: real := 0.8
  const COIN_RADIUS: real := 0.6
  const TRAP_RADIUS: real := 0.5
  /** The lanes of the two UFOs; items and pipes sit at x = 0. */
  const P1_X: real := -2.5
  const P2_X: real := 2.5
  /** Where a hidden ghost is parked. */
  const GHOST_HIDDEN_Y: real := -100.0
  /** The longest frame step the simulation takes. */
  const MAX_DT: real := 0.05
  /** Heights beyond which a UFO crashes, and between which the ghost is kept. */
  const WORLD_BOUND: real := 10.0
  /** Tilt per unit of vertical speed. */
  const TILT_PER_SPEED: real := 0.05
  const PI: real := 3.141592653589793
  /** The ghost's replayed flap lifts it by FLAP_POWER * dt * GHOST_FLAP_SCALE. */
  const GHOST_FLAP_SCALE: real := 30.0
  const TRAP_BURST: nat := 20
  const COIN_BURST: nat := 15
  /** Two pipes and three items: the most events one segment can raise in a check. */
  const MAX_HITS_PER_SEGMENT: nat := 5
  /** The most events one check of the whole pool can raise. */
  const MAX_EVENTS: nat := 1 + MAX_HITS_PER_SEGMENT * NUM_PIPE_SEGMENTS
  /** The CSS colours red and gold, as sRGB channels. */
  const RED: Particles.Color := Particles.Color(1.0, 0.0, 0.0)
  const GOLD: Particles.Color := Particles.Color(1.0, 215.0 / 255.0, 0.0)

  /** The frame step: the renderer's delta, capped at MAX_DT. */
  function ClampDelta(delta: real): (dt: real)
    ensures dt <= MAX_DT
    ensures dt == delta || dt == MAX_DT
    ensures delta <= MAX_DT ==> dt == delta
  {
    Min(delta, MAX_DT)
  }

  /** The UFO's tilt for a vertical speed: proportional, but never past 30 degrees
      nose-up or 90 degrees nose-down. */
  function Tilt(velocity: real): (t: real)
    ensures -PI / 2.0 <= t <= PI / 6.0
    ensures -PI / 2.0 <= velocity * TILT_PER_SPEED <= PI / 6.0 ==> t == velocity * TILT_PER_SPEED
  {
    Min(PI / 6.0, Max(-PI / 2.0, velocity * TILT_PER_SPEED))
  }

  /** A UFO's vertical state: its height, its velocity ref and its tilt (rotation about z). */
  datatype Body = Body(y: real, velocity: real, tilt: real)

  /** resetPlayer: back at the lane's start height, level and at rest. */
  const AT_REST: Body := Body(0.0, 0.0, 0.0)

  /** One frame of free flight: gravity changes the velocity, the new velocity moves the UFO. */
  function Fallen(b: Body, dt: real): (r: Body)
    ensures -PI / 2.0 <= r.tilt <= PI / 6.0
  {
    var v := b.velocity + GRAVITY * dt;
    Body(b.y + v * dt, v, Tilt(v))
  }

  /** The frame after a flap always climbs and tilts nose-up: the flap outweighs a
      full step of gravity. */
  lemma FlapLifts(b: Body, dt: real)
    requires b.velocity == FLAP_POWER && 0.0 < dt <= MAX_DT
    ensures Fallen(b, dt).y > b.y && Fallen(b, dt).velocity > 0.0 && Fallen(b, dt).tilt > 0.0
  {
    var v := FLAP_POWER + GRAVITY * dt;
    assert v >= 6.5;
    assert v * dt > 0.0;
  }

  /** Without a flap a UFO that is not climbing keeps sinking faster. */
  lemma FallsWithoutFlap(b: Body, dt: real)
    requires b.velocity <= 0.0 && dt > 0.0
    ensures Fallen(b, dt).velocity < b.velocity && Fallen(b, dt).y < b.y && Fallen(b, dt).tilt < 0.0
  {
    var v := b.velocity + GRAVITY * dt;
    assert v < 0.0;
    assert v * dt < 0.0;
  }

  // ---------------------------------------------------------------- collisions

  /** The UFO as the collision check sees it: its lane, height and tilt. */
  datatype Pose = Pose(x: real, y: real, tilt: real)

  predicate OutOfBounds(y: real)
  {
    y > WORLD_BOUND || y < -WORLD_BOUND
  }

  /** The callbacks a check raises, in order: onCrash, onTrapHit or onCoinCollect
      (the latter two with the item's position, where the burst is spawned). */
  datatype Hit = Crash | TrapHit(y: real, z: real) | CoinCollect(y: real, z: real)

  /** How close the UFO's centre must come to an item's centre to pick it up. */
  function Reach(item: Item): real
  {
    (if item.isTrap then TRAP_RADIUS else COIN_RADIUS) + UFO_RADIUS
  }

  /** The squared distance between a UFO at (x, y, 0) and an item at (0, item.y, item.z). */
  function DistanceSq(pose: Pose, item: Item): real
  {
    pose.x * pose.x + (pose.y - item.y) * (pose.y - item.y) + item.z * item.z
  }

  predicate Touches(pose: Pose, item: Item)
  {
    item.visible && DistanceSq(pose, item) < Reach(item) * Reach(item)
  }

  function HitFor(item: Item): Hit
  {
    if item.isTrap then TrapHit(item.y, item.z) else CoinCollect(item.y, item.z)
  }

  function PipeAt(seg: Segment, j: nat): Pipe
    requires j < 2
  {
    if j == 0 then seg.upper else seg.lower
  }

  /** One onCrash per visible pipe among the first `n` whose box meets the UFO's. */
  function PipeHits(seg: Segment, pose: Pose, overlap: (Pose, Pipe) -> bool, n: nat): (hits: seq<Hit>)
    requires n <= 2
    ensures |hits| <= n
  {
    if n == 0 then []
    else
      var pipe := PipeAt(seg, n - 1);
      PipeHits(seg, pose, overlap, n - 1) + (if pipe.visible && overlap(pose, pipe) then [Crash] else [])
  }

  /** An item after the check: hidden once touched. */
  function Picked(item: Item, pose: Pose): Item
  {
    if Touches(pose, item) then item.(visible := false) else item
  }

  /** The pickup events of the first `n` item slots. */
  function ItemHits(items: Triple<Item>, pose: Pose, n: nat): (hits: seq<Hit>)
    requires n <= 3
    ensures |hits| <= n
  {
    if n == 0 then []
    else
      var item := items.At(n - 1);
      ItemHits(items, pose, n - 1) + (if Touches(pose, item) then [HitFor(item)] else [])
  }

  /** A segment after the check and the events it raised: pipe crashes first, then pickups. */
  datatype Checked = Checked(seg: Segment, hits: seq<Hit>)

  function CheckedSegment(seg: Segment, pose: Pose, overlap: (Pose, Pipe) -> bool): (c: Checked)
    ensures |c.hits| <= MAX_HITS_PER_SEGMENT
  {
    var items := seg.items;
    Checked(seg.(items := Triple(Picked(items.first, pose), Picked(items.middle, pose), Picked(items.last, pose))),
            PipeHits(seg, pose, overlap, 2) + ItemHits(items, pose, 3))
  }

  /** The pool after a check and every event raised, segment by segment. */
  datatype Outcome = Outcome(segs: seq<Segment>, hits: seq<Hit>)

  function Collide(segs: seq<Segment>, pose: Pose, overlap: (Pose, Pipe) -> bool): (r: Outcome)
    ensures |r.segs| == |segs|
    ensures |r.hits| <= MAX_HITS_PER_SEGMENT * |segs|
    decreases |segs|
  {
    if segs == [] then Outcome([], [])
    else
      var n := |segs| - 1;
      var prev := Collide(segs[..n], pose, overlap);
      var c := CheckedSegment(segs[n], pose, overlap);
      Outcome(prev.segs + [c.seg], prev.hits + c.hits)
  }

  /** checkCollisions: out of bounds it raises a single crash and looks no further. */
  function Collision(segs: seq<Segment>, pose: Pose, overlap: (Pose, Pipe) -> bool): (r: Outcome)
    ensures OutOfBounds(pose.y) ==> r == Outcome(segs, [Crash])
    ensures !OutOfBounds(pose.y) ==> r == Collide(segs, pose, overlap)
    ensures |r.segs| == |segs| && |r.hits| <= 1 + MAX_HITS_PER_SEGMENT * |segs|
  {
    if OutOfBounds(pose.y) then Outcome(segs, [Crash]) else Collide(segs, pose, overlap)
  }

  /** Segment k after a check is segment k checked on its own. */
  lemma {:induction false} CollideAt(segs: seq<Segment>, pose: Pose, overlap: (Pose, Pipe) -> bool, k: nat)
    requires k < |segs|
    ensures Collide(segs, pose, overlap).segs[k] == CheckedSegment(segs[k], pose, overlap).seg
  {
    var n := |segs| - 1;
    var prev := Collide(segs[..n], pose, overlap);
    assert Collide(segs, pose, overlap).segs == prev.segs + [CheckedSegment(segs[n], pose, overlap).seg];
    if k < n {
      CollideAt(segs[..n], pose, overlap, k);
      assert segs[..n][k] == segs[k];
    }
  }

  /** A check changes nothing but item visibility: every touched item is hidden, every
      other item, both pipes, the pass flag and the depth stay as they were. */
  lemma CollideOnlyHidesTouched(segs: seq<Segment>, pose: Pose, overlap: (Pose, Pipe) -> bool, k: nat, j: nat)
    requires k < |segs| && j < 3
    ensures var after := Collide(segs, pose, overlap).segs[k];
      && after.upper == segs[k].upper && after.lower == segs[k].lower
      && after.passed == segs[k].passed && after.positionZ == segs[k].positionZ
      && after.items.At(j) == (if Touches(pose, segs[k].items.At(j)) then segs[k].items.At(j).(visible := false)
                               else segs[k].items.At(j))
  {
    CollideAt(segs, pose, overlap, k);
  }

  /** Every pickup event names an item that was touched; its kind follows the item's. */
  lemma {:induction false} ItemHitsNameTouched(items: Triple<Item>, pose: Pose, n: nat, i: nat)
    requires n <= 3 && i < |ItemHits(items, pose, n)|
    ensures exists j :: 0 <= j < n && Touches(pose, items.At(j)) && ItemHits(items, pose, n)[i] == HitFor(items.At(j))
  {
    var prev := ItemHits(items, pose, n - 1);
    if i < |prev| {
      ItemHitsNameTouched(items, pose, n - 1, i);
      var j :| 0 <= j < n - 1 && Touches(pose, items.At(j)) && prev[i] == HitFor(items.At(j));
      assert ItemHits(items, pose, n)[i] == prev[i];
    } else {
      assert Touches(pose, items.At(n - 1));
    }
  }

  /** A hidden item raises nothing. */
  lemma {:induction false} NoHitsFromHidden(items: Triple<Item>, pose: Pose, n: nat)
    requires n <= 3
    requires forall j :: 0 <= j < 3 ==> !items.At(j).visible
    ensures ItemHits(items, pose, n) == []
  {
    if n > 0 {
      NoHitsFromHidden(items, pose, n - 1);
    }
  }

  /** Only crashes, when no item is within reach. */
  predicate CrashesOnly(hits: seq<Hit>)
  {
    forall i :: 0 <= i < |hits| ==> hits[i] == Crash
  }

  lemma {:induction false} PipeHitsAreCrashes(seg: Segment, pose: Pose, overlap: (Pose, Pipe) -> bool, n: nat)
    requires n <= 2
    ensures CrashesOnly(PipeHits(seg, pose, overlap, n))
  {
    if n > 0 {
      PipeHitsAreCrashes(seg, pose, overlap, n - 1);
    }
  }

  /** A crash is raised exactly when one of the checked pipes is shown and meets the UFO. */
  lemma {:induction false} PipeCrashIffOverlap(seg: Segment, pose: Pose, overlap: (Pose, Pipe) -> bool, n: nat)
    requires n <= 2
    ensures Crash in PipeHits(seg, pose, overlap, n)
      <==> exists j :: 0 <= j < n && PipeAt(seg, j).visible && overlap(pose, PipeAt(seg, j))
  {
    if n > 0 {
      PipeCrashIffOverlap(seg, pose, overlap, n - 1);
    }
  }

  /** Each pipe raises its own crash: the early return only leaves that pipe's callback,
      so a UFO meeting both pipes of a segment crashes twice. */
  lemma BothPipesCrash(seg: Segment, pose: Pose, overlap: (Pose, Pipe) -> bool)
    requires seg.upper.visible && overlap(pose, seg.upper)
    requires seg.lower.visible && overlap(pose, seg.lower)
    ensures PipeHits(seg, pose, overlap, 2) == [Crash, Crash]
  {
    assert PipeHits(seg, pose, overlap, 1) == [Crash];
  }

  /** Every touched item among the first `n` slots raises its own event. */
  lemma {:induction false} TouchedItemHits(items: Triple<Item>, pose: Pose, n: nat, j: nat)
    requires n <= 3 && j < n
    requires Touches(pose, items.At(j))
    ensures HitFor(items.At(j)) in ItemHits(items, pose, n)
  {
    if j < n - 1 {
      TouchedItemHits(items, pose, n - 1, j);
    }
  }

  /** Items are collected once: checking the pool again from the same spot changes
      nothing more and raises pipe crashes only. */
  lemma {:induction false} CollideIdempotent(segs: seq<Segment>, pose: Pose, overlap: (Pose, Pipe) -> bool)
    ensures var once := Collide(segs, pose, overlap);
      var twice := Collide(once.segs, pose, overlap);
      twice.segs == once.segs && CrashesOnly(twice.hits)
  {
    if segs != [] {
      var n := |segs| - 1;
      var once := Collide(segs, pose, overlap);
      var prev := Collide(segs[..n], pose, overlap);
      var c := CheckedSegment(segs[n], pose, overlap);
      assert once.segs[..n] == prev.segs;
      assert once.segs[n] == c.seg;
      CollideIdempotent(segs[..n], pose, overlap);
      var c2 := CheckedSegment(c.seg, pose, overlap);
      assert c2.seg == c.seg;
      ItemHitsAfterPick(segs[n].items, pose, 3);
      PipeHitsAreCrashes(c.seg, pose, overlap, 2);
      assert CrashesOnly(c2.hits);
    }
  }

  /** After a pick, no slot is touched any more. */
  lemma {:induction false} ItemHitsAfterPick(items: Triple<Item>, pose: Pose, n: nat)
    requires n <= 3
    ensures ItemHits(Triple(Picked(items.first, pose), Picked(items.middle, pose), Picked(items.last, pose)), pose, n) == []
  {
    if n > 0 {
      ItemHitsAfterPick(items, pose, n - 1);
    }
  }

  /** Nothing is ever picked up from the UFO lanes: a UFO 2.5 to the side of the item
      column is farther than any pickup reach (at most 1.4), so a check from there
      leaves every item alone and raises crashes only. */
  lemma {:induction false} NoPickupFromLanes(segs: seq<Segment>, pose: Pose, overlap: (Pose, Pipe) -> bool)
    requires pose.x <= P1_X || pose.x >= P2_X
    ensures Collide(segs, pose, overlap).segs == segs
    ensures CrashesOnly(Collide(segs, pose, overlap).hits)
  {
    if segs != [] {
      var n := |segs| - 1;
      NoPickupFromLanes(segs[..n], pose, overlap);
      var prev := Collide(segs[..n], pose, overlap);
      var c := CheckedSegment(segs[n], pose, overlap);
      assert Collide(segs, pose, overlap) == Outcome(prev.segs + [c.seg], prev.hits + c.hits);
      var items := segs[n].items;
      forall j | 0 <= j < 3
        ensures !Touches(pose, items.At(j))
      {
        OutOfReach(pose, items.At(j));
      }
      assert c.seg == segs[n];
      NoTouchNoHits(items, pose, 3);
      PipeHitsAreCrashes(segs[n], pose, overlap, 2);
      assert CrashesOnly(c.hits);
      assert segs[..n] + [segs[n]] == segs;
    }
  }

  lemma OutOfReach(pose: Pose, item: Item)
    requires pose.x <= P1_X || pose.x >= P2_X
    ensures !Touches(pose, item)
  {
    assert pose.x * pose.x >= 6.25;
    assert (pose.y - item.y) * (pose.y - item.y) >= 0.0;
    assert item.z * item.z >= 0.0;
    assert Reach(item) * Reach(item) <= 1.96;
  }

  lemma {:induction false} NoTouchNoHits(items: Triple<Item>, pose: Pose, n: nat)
    requires n <= 3
    requires forall j :: 0 <= j < 3 ==> !Touches(pose, items.At(j))
    ensures ItemHits(items, pose, n) == []
  {
    if n > 0 {
      NoTouchNoHits(items, pose, n - 1);
    }
  }

  /** A check hides items only, so hidden pipes stay passed. */
  lemma CollisionSettles(segs: seq<Segment>, pose: Pose, overlap: (Pose, Pipe) -> bool)
    requires PoolSettled(segs)
    ensures PoolSettled(Collision(segs, pose, overlap).segs)
  {
    if !OutOfBounds(pose.y) {
      forall k | 0 <= k < |segs|
        ensures HiddenPassed(Collide(segs, pose, overlap).segs[k])
      {
        CollideOnlyHidesTouched(segs, pose, overlap, k, 0);
      }
    }
  }

  /** checkCollisions' inner part for one segment: its two pipes, then its three item slots. */
  method CheckSegment(segment: Segment, pose: Pose, overlap: (Pose, Pipe) -> bool) returns (s: Segment, hits: seq<Hit>)
    ensures Checked(s, hits) == CheckedSegment(segment, pose, overlap)
  {
    hits := [];
    for j := 0 to 2
      invariant hits == PipeHits(segment, pose, overlap, j)
    {
      var pipe := PipeAt(segment, j);
      if pipe.visible && overlap(pose, pipe) {
        hits := hits + [Crash];
      }
    }
    var items := segment.items;
    for j := 0 to 3
      invariant hits == PipeHits(segment, pose, overlap, 2) + ItemHits(segment.items, pose, j)
      invariant forall i :: 0 <= i < j ==> items.At(i) == Picked(segment.items.At(i), pose)
      invariant forall i :: j <= i < 3 ==> items.At(i) == segment.items.At(i)
    {
      var item := items.At(j);
      if Touches(pose, item) {
        items := items.With(j, item.(visible := false));
        hits := hits + [HitFor(item)];
      }
    }
    assert items == Triple(items.At(0), items.At(1), items.At(2));
    s := segment.(items := items);
  }

  // ---------------------------------------------------------------- particle bursts

  /** The particles one event spawns: red for a trap, gold for a star, none for a crash. */
  function Burst(ps: seq<Particle>, h: Hit, rolls: seq<Particles.Roll>): (r: seq<Particle>)
    requires BurstRolls(rolls)
    ensures |r| == |ps|
  {
    match h
    case Crash => ps
    case TrapHit(y, z) => Particles.Triggered(ps, Particles.Vec3(0.0, y, z), RED, TRAP_BURST, rolls)
    case CoinCollect(y, z) => Particles.Triggered(ps, Particles.Vec3(0.0, y, z), GOLD, COIN_BURST, rolls)
  }

  type Particle = Particles.Particle

  /** How many particles an event asks the pool for. */
  function BurstSize(h: Hit): nat
  {
    match h
    case Crash => 0
    case TrapHit(_, _) => TRAP_BURST
    case CoinCollect(_, _) => COIN_BURST
  }

  /** The colour of an event's particles. */
  function BurstColor(h: Hit): Particles.Color
  {
    if h.TrapHit? then RED else GOLD
  }

  /** A burst changes exactly the particles the trigger claims; each of them comes alive
      at the item's position in the event's colour. */
  lemma BurstAt(ps: seq<Particle>, h: Hit, rolls: seq<Particles.Roll>, i: nat)
    requires BurstRolls(rolls) && i < |ps|
    ensures var q := Burst(ps, h, rolls)[i];
      && (q != ps[i] <==> Particles.Claimed(ps, i, BurstSize(h)))
      && (Particles.Claimed(ps, i, BurstSize(h)) ==>
            && !h.Crash?
            && q.position == Particles.Vec3(0.0, h.y, h.z) && q.color == BurstColor(h)
            && Particles.MIN_LIFE <= q.life < 2.0 * Particles.MIN_LIFE)
  {
  }

  /** How many of the first `i` particles differ between two pools. */
  function Renewed(before: seq<Particle>, after: seq<Particle>, i: nat): nat
    requires i <= |before| && i <= |after|
  {
    if i == 0 then 0 else Renewed(before, after, i - 1) + (if before[i - 1] != after[i - 1] then 1 else 0)
  }

  lemma {:induction false} RenewedAreClaimed(ps: seq<Particle>, h: Hit, rolls: seq<Particles.Roll>, i: nat)
    requires BurstRolls(rolls) && i <= |ps|
    ensures Renewed(ps, Burst(ps, h, rolls), i) == Particles.ClaimedBefore(ps, i, BurstSize(h))
  {
    if i > 0 {
      RenewedAreClaimed(ps, h, rolls, i - 1);
      BurstAt(ps, h, rolls, i - 1);
    }
  }

  /** A trap renews min(20, free) particles and a coin min(15, free); a crash none. */
  lemma BurstRenewsMinOfSizeAndFree(ps: seq<Particle>, h: Hit, rolls: seq<Particles.Roll>)
    requires BurstRolls(rolls)
    ensures Renewed(ps, Burst(ps, h, rolls), |ps|)
      == Particles.MinCount(BurstSize(h), Particles.FreeBefore(ps, |ps|))
  {
    RenewedAreClaimed(ps, h, rolls, |ps|);
    Particles.ClaimsMinOfCountAndFree(ps, |ps|, BurstSize(h));
  }

  /** Enough valid random numbers for the largest burst. */
  predicate BurstRolls(rolls: seq<Particles.Roll>)
  {
    |rolls| >= TRAP_BURST && forall j :: 0 <= j < |rolls| ==> Particles.ValidRoll(rolls[j])
  }

  /** One list of rolls per event. */
  predicate RollsFor(n: nat, rolls: seq<seq<Particles.Roll>>)
  {
    |rolls| >= n && forall k :: 0 <= k < |rolls| ==> BurstRolls(rolls[k])
  }

  /** The pool after the bursts of `hits`, in event order. */
  function Bursts(ps: seq<Particle>, hits: seq<Hit>, rolls: seq<seq<Particles.Roll>>): (r: seq<Particle>)
    requires RollsFor(|hits|, rolls)
    ensures |r| == |ps|
    decreases |hits|
  {
    if hits == [] then ps
    else
      var n := |hits| - 1;
      Burst(Bursts(ps, hits[..n], rolls), hits[n], rolls[n])
  }

  /** Bursts never disturb a particle that is still alive, and a crash spawns nothing. */
  lemma {:induction false} BurstsSpareLive(ps: seq<Particle>, hits: seq<Hit>, rolls: seq<seq<Particles.Roll>>, i: nat)
    requires RollsFor(|hits|, rolls) && i < |ps| && ps[i].life > 0.0
    ensures Bursts(ps, hits, rolls)[i] == ps[i]
  {
    if hits != [] {
      var n := |hits| - 1;
      var prev := Bursts(ps, hits[..n], rolls);
      BurstsSpareLive(ps, hits[..n], rolls, i);
      match hits[n]
      case Crash =>
      case TrapHit(y, z) =>
        Particles.TriggerSparesLive(prev, i, Particles.Vec3(0.0, y, z), RED, TRAP_BURST, rolls[n]);
      case CoinCollect(y, z) =>
        Particles.TriggerSparesLive(prev, i, Particles.Vec3(0.0, y, z), GOLD, COIN_BURST, rolls[n]);
    }
  }

  lemma {:induction false} CrashesSpawnNothing(ps: seq<Particle>, hits: seq<Hit>, rolls: seq<seq<Particles.Roll>>)
    requires RollsFor(|hits|, rolls) && CrashesOnly(hits)
    ensures Bursts(ps, hits, rolls) == ps
  {
    if hits != [] {
      CrashesSpawnNothing(ps, hits[..|hits| - 1], rolls);
    }
  }

  // ---------------------------------------------------------------- the ghost replay

  /** Where the replay of `flaps` stops: the first flap from `index` on that is not
      earlier than `elapsed`. */
  function Replayed(flaps: seq<int>, index: nat, elapsed: int): (next: nat)
    ensures index <= next
    ensures next <= |flaps| || next == index
    ensures forall k :: index <= k < next ==> flaps[k] < elapsed
    ensures next < |flaps| ==> flaps[next] >= elapsed
    decreases |flaps| - index
  {
    if index < |flaps| && flaps[index] < elapsed then Replayed(flaps, index + 1, elapsed) else index
  }

  ghost predicate Ascending(flaps: seq<int>)
  {
    forall i, j :: 0 <= i <= j < |flaps| ==> flaps[i] <= flaps[j]
  }

  /** The number of flaps recorded strictly before `t`. */
  function CountBefore(flaps: seq<int>, t: int): (n: nat)
    ensures n <= |flaps|
  {
    if flaps == [] then 0
    else CountBefore(flaps[..|flaps| - 1], t) + (if flaps[|flaps| - 1] < t then 1 else 0)
  }

  lemma {:induction false} CountAllBefore(flaps: seq<int>, t: int)
    requires forall k :: 0 <= k < |flaps| ==> flaps[k] < t
    ensures CountBefore(flaps, t) == |flaps|
  {
    if flaps != [] {
      CountAllBefore(flaps[..|flaps| - 1], t);
    }
  }

  /** On a recording in time order, a replay from the start stops exactly after the
      flaps recorded before `elapsed`: the ghost has performed every earlier flap and
      none later. */
  lemma {:induction false} ReplayCatchesUp(flaps: seq<int>, elapsed: int)
    requires Ascending(flaps)
    ensures Replayed(flaps, 0, elapsed) == CountBefore(flaps, elapsed)
  {
    StopIsCount(flaps, elapsed, Replayed(flaps, 0, elapsed));
  }

  lemma {:induction false} StopIsCount(flaps: seq<int>, t: int, n: nat)
    requires Ascending(flaps) && n <= |flaps|
    requires forall k :: 0 <= k < n ==> flaps[k] < t
    requires n < |flaps| ==> flaps[n] >= t
    ensures n == CountBefore(flaps, t)
  {
    if n == |flaps| {
      CountAllBefore(flaps, t);
    } else {
      var m := |flaps| - 1;
      assert flaps[m] >= flaps[n];
      assert CountBefore(flaps, t) == CountBefore(flaps[..m], t);
      StopIsCount(flaps[..m], t, n);
    }
  }

  /** Keeps a height within the world bounds. */
  function ClampY(y: real): (r: real)
    ensures -WORLD_BOUND <= r <= WORLD_BOUND
    ensures -WORLD_BOUND <= y <= WORLD_BOUND ==> r == y
    ensures y > WORLD_BOUND ==> r == WORLD_BOUND
    ensures y < -WORLD_BOUND ==> r == -WORLD_BOUND
  {
    if y > WORLD_BOUND then WORLD_BOUND else if y < -WORLD_BOUND then -WORLD_BOUND else y
  }

  /** The ghost's lift per replayed flap. */
  function GhostLift(dt: real): real
  {
    FLAP_POWER * dt * GHOST_FLAP_SCALE
  }

  /** A height raised by `n` replayed flaps of `lift` each. */
  function Lifted(y: real, n: nat, lift: real): real
  {
    if n == 0 then y else Lifted(y, n - 1, lift) + lift
  }

  /** n flaps raise the ghost by n lifts. */
  lemma {:induction false} LiftedIsProduct(y: real, n: nat, lift: real)
    ensures Lifted(y, n, lift) == y + n as real * lift
  {
    if n > 0 {
      LiftedIsProduct(y, n - 1, lift);
    }
  }

  /** The ghost's frame: replay every flap recorded before `elapsed`, fall one step, clamp. */
  method AdvanceGhost(flaps: seq<int>, index: nat, y: real, elapsed: int, dt: real) returns (next: nat, ghostY: real)
    ensures next == Replayed(flaps, index, elapsed)
    ensures ghostY == ClampY(Lifted(y, next - index, GhostLift(dt)) + GRAVITY * dt)
  {
    next := index;
    ghostY := y;
    while next < |flaps| && flaps[next] < elapsed
      invariant index <= next
      invariant Replayed(flaps, next, elapsed) == Replayed(flaps, index, elapsed)
      invariant ghostY == Lifted(y, next - index, GhostLift(dt))
      decreases |flaps| - next
    {
      ghostY := ghostY + FLAP_POWER * dt * GHOST_FLAP_SCALE;
      next := next + 1;
    }
    ghostY := ghostY + GRAVITY * dt;
    if ghostY > WORLD_BOUND {
      ghostY := WORLD_BOUND;
    }
    if ghostY < -WORLD_BOUND {
      ghostY := -WORLD_BOUND;
    }
  }

  // ---------------------------------------------------------------- the scene

  /** Player 1's UFO is mounted and flies while it plays outside the start menu. */
  predicate P1Flies(mode: GameMode, p1State: GameState)
  {
    p1State == Playing && mode != StartMenu
  }

  /** Player 2's UFO flies only in a challenge. */
  predicate P2Flies(mode: GameMode, p2State: GameState)
  {
    mode == Challenge && p2State == Playing
  }

  /** The ghost is mounted in a challenge with a recording to replay. */
  predicate GhostShown(mode: GameMode, lastRecording: Option<Recording>)
  {
    mode == Challenge && lastRecording.Some?
  }

  predicate Resets(s: GameState)
  {
    s == Ready || s == Start
  }

  /** A UFO's check in a frame, or nothing when it does not fly. */
  function Turn(segs: seq<Segment>, flies: bool, pose: Pose, overlap: (Pose, Pipe) -> bool): (r: Outcome)
    ensures |r.segs| == |segs| && |r.hits| <= 1 + MAX_HITS_PER_SEGMENT * |segs|
    ensures !flies ==> r == Outcome(segs, [])
  {
    if flies then Collision(segs, pose, overlap) else Outcome(segs, [])
  }

  class Scene {
    var p1: Body
    var p2: Body
    var ghostIndex: nat
    var ghostStartTime: int
    var ghostY: real
    const pipes: PipeSystem
    const particles: Particles.ParticlePool

    ghost predicate Valid()
      reads this, pipes, particles, particles.particles
    {
      pipes.Valid() && particles.Valid()
    }

    constructor ()
      ensures Valid() && fresh(pipes) && fresh(particles) && fresh(particles.particles)
      ensures p1 == AT_REST && p2 == AT_REST && pipes.segments == []
      ensures ghostIndex == 0 && ghostStartTime == 0 && ghostY == 0.0
    {
      p1 := AT_REST;
      p2 := AT_REST;
      ghostIndex := 0;
      ghostStartTime := 0;
      ghostY := 0.0;
      pipes := new PipeSystem();
      particles := new Particles.ParticlePool();
    }

    /** Player 1's flap: only while playing; the return value says whether onFlap was called. */
    method FlapP1(p1State: GameState) returns (flapped: bool)
      modifies this
      ensures flapped <==> p1State == Playing
      ensures p1 == if flapped then old(p1).(velocity := FLAP_POWER) else old(p1)
      ensures p2 == old(p2) && ghostIndex == old(ghostIndex) && ghostStartTime == old(ghostStartTime)
      ensures ghostY == old(ghostY)
    {
      flapped := false;
      if p1State == Playing {
        p1 := p1.(velocity := FLAP_POWER);
        flapped := true;
      }
    }

    /** Player 2's flap: only while playing a challenge. */
    method FlapP2(p2State: GameState, mode: GameMode) returns (flapped: bool)
      modifies this
      ensures flapped <==> p2State == Playing && mode == Challenge
      ensures p2 == if flapped then old(p2).(velocity := FLAP_POWER) else old(p2)
      ensures p1 == old(p1) && ghostIndex == old(ghostIndex) && ghostStartTime == old(ghostStartTime)
      ensures ghostY == old(ghostY)
    {
      flapped := false;
      if p2State == Playing && mode == Challenge {
        p2 := p2.(velocity := FLAP_POWER);
        flapped := true;
      }
    }

    /** The reset effect, run whenever either player's state or the level changes:
        players that are ready (or on the menu) go back to rest, the ghost is hidden,
        and when player 1 is ready the pool is laid out afresh and the replay rewound. */
    method OnStatesChanged(mode: GameMode, lastRecording: Option<Recording>, p1State: GameState, p2State: GameState,
                           level: int, draws: seq<Draws>)
      requires Valid() && level >= 1
      requires |draws| >= NUM_PIPE_SEGMENTS && AllValid(draws)
      modifies this, pipes
      ensures Valid()
      ensures p1 == (if Resets(p1State) then AT_REST else old(p1))
      ensures p2 == (if Resets(p2State) then AT_REST else old(p2))
      ensures ghostY == (if GhostShown(mode, lastRecording) then GHOST_HIDDEN_Y else old(ghostY))
      ensures Resets(p1State) ==>
        && ghostIndex == 0 && ghostStartTime == 0
        && pipes.color == GetLevelConfig(level).color
        && LaidOut(old(pipes.segments), pipes.segments, GetLevelConfig(level), draws)
        && pipes.generationCounter == NUM_PIPE_SEGMENTS
      ensures !Resets(p1State) ==>
        && ghostIndex == old(ghostIndex) && ghostStartTime == old(ghostStartTime)
        && pipes.segments == old(pipes.segments) && pipes.generationCounter == old(pipes.generationCounter)
        && pipes.color == old(pipes.color)
    {
      if Resets(p1State) {
        p1 := AT_REST;
      }
      if Resets(p2State) {
        p2 := AT_REST;
      }
      if GhostShown(mode, lastRecording) {
        ghostY := GHOST_HIDDEN_Y;
      }
      if Resets(p1State) {
        pipes.InitializeAndReset(level, draws);
        ghostIndex := 0;
        ghostStartTime := 0;
      }
    }

    /** The ghost effect: when player 1 starts playing a challenge with a recording, the
        replay clock starts at `now` and the ghost returns to its start height. */
    method StartGhost(mode: GameMode, lastRecording: Option<Recording>, p1State: GameState, now: int)
      modifies this
      ensures p1 == old(p1) && p2 == old(p2)
      ensures GhostShown(mode, lastRecording) && p1State == Playing ==>
        ghostStartTime == now && ghostIndex == 0 && ghostY == 0.0
      ensures !(GhostShown(mode, lastRecording) && p1State == Playing) ==>
        ghostStartTime == old(ghostStartTime) && ghostIndex == old(ghostIndex) && ghostY == old(ghostY)
    {
      if GhostShown(mode, lastRecording) && p1State == Playing {
        ghostStartTime := now;
        ghostIndex := 0;
        ghostY := 0.0;
      }
    }

    /** checkCollisions for a UFO at `pose`: walks the pool, hiding the items it picks
        up, and returns the events it raised in order. */
    method CheckCollisions(pose: Pose, overlap: (Pose, Pipe) -> bool) returns (hits: seq<Hit>)
      requires pipes.Valid()
      modifies pipes
      ensures pipes.Valid()
      ensures Outcome(pipes.segments, hits) == Collision(old(pipes.segments), pose, overlap)
      ensures pipes.generationCounter == old(pipes.generationCounter) && pipes.color == old(pipes.color)
    {
      if pose.y > WORLD_BOUND || pose.y < -WORLD_BOUND {
        hits := [Crash];
        return;
      }
      var segs := pipes.segments;
      var checked: seq<Segment> := [];
      hits := [];
      for k := 0 to |segs|
        invariant unchanged(pipes)
        invariant Outcome(checked, hits) == Collide(segs[..k], pose, overlap)
      {
        assert segs[..k + 1][..k] == segs[..k];
        var s, h := CheckSegment(segs[k], pose, overlap);
        checked := checked + [s];
        hits := hits + h;
      }
      assert segs[..|segs|] == segs;
      CollisionSettles(segs, pose, overlap);
      pipes.segments := checked;
    }

    /** The bursts a check's events spawn, in event order. */
    method EmitBursts(hits: seq<Hit>, rolls: seq<seq<Particles.Roll>>)
      requires particles.Valid() && RollsFor(|hits|, rolls)
      modifies particles.particles
      ensures particles.Valid()
      ensures particles.particles[..] == Bursts(old(particles.particles[..]), hits, rolls)
    {
      for k := 0 to |hits|
        invariant particles.Valid()
        invariant particles.particles[..] == Bursts(old(particles.particles[..]), hits[..k], rolls)
      {
        assert hits[..k + 1][..k] == hits[..k];
        match hits[k]
        case Crash =>
        case TrapHit(y, z) =>
          particles.Trigger(Particles.Vec3(0.0, y, z), RED, TRAP_BURST, rolls[k]);
        case CoinCollect(y, z) =>
          particles.Trigger(Particles.Vec3(0.0, y, z), GOLD, COIN_BURST, rolls[k]);
      }
      assert hits[..|hits|] == hits;
    }

    /** One UFO's share of a frame: fall, tilt, then check collisions and spawn bursts. */
    method Fly(b: Body, x: real, dt: real, overlap: (Pose, Pipe) -> bool, rolls: seq<seq<Particles.Roll>>)
      returns (moved: Body, hits: seq<Hit>)
      requires Valid() && RollsFor(MAX_EVENTS, rolls)
      modifies pipes, particles.particles
      ensures Valid()
      ensures moved == Fallen(b, dt)
      ensures Outcome(pipes.segments, hits) == Collision(old(pipes.segments), Pose(x, moved.y, moved.tilt), overlap)
      ensures particles.particles[..] == Bursts(old(particles.particles[..]), hits, rolls)
      ensures pipes.generationCounter == old(pipes.generationCounter) && pipes.color == old(pipes.color)
    {
      var velocity := b.velocity + GRAVITY * dt;
      var y := b.y + velocity * dt;
      var tilt := Tilt(velocity);
      moved := Body(y, velocity, tilt);
      hits := CheckCollisions(Pose(x, y, tilt), overlap);
      EmitBursts(hits, rolls);
    }

    /** The ghost's share of a frame. */
    method StepGhost(mode: GameMode, lastRecording: Option<Recording>, now: int, dt: real)
      modifies this
      ensures p1 == old(p1) && p2 == old(p2) && ghostStartTime == old(ghostStartTime)
      ensures GhostShown(mode, lastRecording) && old(ghostStartTime) > 0 ==>
        var elapsed := now - old(ghostStartTime);
        && ghostIndex == Replayed(lastRecording.value.flaps, old(ghostIndex), elapsed)
        && ghostY == ClampY(Lifted(old(ghostY), ghostIndex - old(ghostIndex), GhostLift(dt)) + GRAVITY * dt)
      ensures !(GhostShown(mode, lastRecording) && old(ghostStartTime) > 0) ==>
        ghostIndex == old(ghostIndex) && ghostY == old(ghostY)
    {
      if mode == Challenge && lastRecording.Some? && ghostStartTime > 0 {
        var elapsedTime := now - ghostStartTime;
        ghostIndex, ghostY := AdvanceGhost(lastRecording.value.flaps, ghostIndex, ghostY, elapsedTime, dt);
      }
    }

    /** One rendered frame (useFrame): player 1 flies, then player 2 in a challenge,
        seeing the items player 1 just took; the pool scrolls while anyone plays, its
        pipe passes all reported for player 1; the ghost replays its recording. */
    method Frame(mode: GameMode, lastRecording: Option<Recording>, p1State: GameState, p2State: GameState,
                 level: int, delta: real, now: int, overlap: (Pose, Pipe) -> bool, draws: seq<Draws>,
                 rolls1: seq<seq<Particles.Roll>>, rolls2: seq<seq<Particles.Roll>>)
      returns (hits1: seq<Hit>, hits2: seq<Hit>, passes: seq<bool>)
      requires Valid() && level >= 1
      requires |draws| >= NUM_PIPE_SEGMENTS && AllValid(draws)
      requires RollsFor(MAX_EVENTS, rolls1) && RollsFor(MAX_EVENTS, rolls2)
      modifies this, pipes, particles.particles
      ensures Valid()
      ensures var dt := ClampDelta(delta);
        && p1 == (if P1Flies(mode, p1State) then Fallen(old(p1), dt) else old(p1))
        && p2 == (if P2Flies(mode, p2State) then Fallen(old(p2), dt) else old(p2))
      ensures var first := Turn(old(pipes.segments), P1Flies(mode, p1State), Pose(P1_X, p1.y, p1.tilt), overlap);
        var second := Turn(first.segs, P2Flies(mode, p2State), Pose(P2_X, p2.y, p2.tilt), overlap);
        && hits1 == first.hits && hits2 == second.hits
        && particles.particles[..] == Bursts(Bursts(old(particles.particles[..]), hits1, rolls1), hits2, rolls2)
        && (p1State == Playing || p2State == Playing ==>
              Swept(pipes.segments, pipes.generationCounter, passes)
                == Scrolled(second.segs, level, ClampDelta(delta), old(pipes.generationCounter), draws))
        && (!(p1State == Playing || p2State == Playing) ==>
              pipes.segments == second.segs && pipes.generationCounter == old(pipes.generationCounter) && passes == [])
      ensures ghostStartTime == old(ghostStartTime)
      ensures GhostShown(mode, lastRecording) && old(ghostStartTime) > 0 ==>
        && ghostIndex == Replayed(lastRecording.value.flaps, old(ghostIndex), now - old(ghostStartTime))
        && ghostY == ClampY(Lifted(old(ghostY), ghostIndex - old(ghostIndex), GhostLift(ClampDelta(delta))) + GRAVITY * ClampDelta(delta))
      ensures !(GhostShown(mode, lastRecording) && old(ghostStartTime) > 0) ==>
        ghostIndex == old(ghostIndex) && ghostY == old(ghostY)
    {
      var dt := ClampDelta(delta);
      hits1, hits2 := FlyPlayers(mode, p1State, p2State, dt, overlap, rolls1, rolls2);
      passes := ScrollAndReplay(p1State == Playing || p2State == Playing, mode, lastRecording, dt, level, now, draws);
    }

    /** The rest of a frame: the pool scrolls only while someone plays, and the ghost
        replays its recording. */
    method ScrollAndReplay(playing: bool, mode: GameMode, lastRecording: Option<Recording>, dt: real,
                           level: int, now: int, draws: seq<Draws>) returns (passes: seq<bool>)
      requires Valid() && level >= 1
      requires |draws| >= NUM_PIPE_SEGMENTS && AllValid(draws)
      modifies this, pipes
      ensures Valid()
      ensures p1 == old(p1) && p2 == old(p2) && ghostStartTime == old(ghostStartTime)
      ensures particles.particles[..] == old(particles.particles[..])
      ensures GhostShown(mode, lastRecording) && old(ghostStartTime) > 0 ==>
        && ghostIndex == Replayed(lastRecording.value.flaps, old(ghostIndex), now - old(ghostStartTime))
        && ghostY == ClampY(Lifted(old(ghostY), ghostIndex - old(ghostIndex), GhostLift(dt)) + GRAVITY * dt)
      ensures !(GhostShown(mode, lastRecording) && old(ghostStartTime) > 0) ==>
        ghostIndex == old(ghostIndex) && ghostY == old(ghostY)
      ensures playing ==>
        Swept(pipes.segments, pipes.generationCounter, passes)
          == Scrolled(old(pipes.segments), level, dt, old(pipes.generationCounter), draws)
      ensures !playing ==>
        pipes.segments == old(pipes.segments) && pipes.generationCounter == old(pipes.generationCounter) && passes == []
    {
      passes := [];
      if playing {
        passes := pipes.MovePipes(dt, level, draws);
      }
      StepGhost(mode, lastRecording, now, dt);
    }

    /** The players' part of a frame: player 1, then player 2 on what player 1 left. */
    method FlyPlayers(mode: GameMode, p1State: GameState, p2State: GameState, dt: real, overlap: (Pose, Pipe) -> bool,
                      rolls1: seq<seq<Particles.Roll>>, rolls2: seq<seq<Particles.Roll>>)
      returns (hits1: seq<Hit>, hits2: seq<Hit>)
      requires Valid()
      requires RollsFor(MAX_EVENTS, rolls1) && RollsFor(MAX_EVENTS, rolls2)
      modifies this, pipes, particles.particles
      ensures Valid()
      ensures p1 == (if P1Flies(mode, p1State) then Fallen(old(p1), dt) else old(p1))
      ensures p2 == (if P2Flies(mode, p2State) then Fallen(old(p2), dt) else old(p2))
      ensures ghostIndex == old(ghostIndex) && ghostStartTime == old(ghostStartTime) && ghostY == old(ghostY)
      ensures pipes.generationCounter == old(pipes.generationCounter) && pipes.color == old(pipes.color)
      ensures var first := Turn(old(pipes.segments), P1Flies(mode, p1State), Pose(P1_X, p1.y, p1.tilt), overlap);
        var second := Turn(first.segs, P2Flies(mode, p2State), Pose(P2_X, p2.y, p2.tilt), overlap);
        && hits1 == first.hits && hits2 == second.hits && pipes.segments == second.segs
        && particles.particles[..] == Bursts(Bursts(old(particles.particles[..]), hits1, rolls1), hits2, rolls2)
    {
      hits1, hits2 := [], [];
      if p1State == Playing && mode != StartMenu {
        p1, hits1 := Fly(p1, P1_X, dt, overlap, rolls1);
      }
      if mode == Challenge && p2State == Playing {
        p2, hits2 := Fly(p2, P2_X, dt, overlap, rolls2);
      }
    }
  }
}
