// The obstacle pool (components/PipeSystem.tsx): five recyclable segments, each a
// pair of pipes and three item slots. A segment is regenerated with fresh content
// whenever it scrolls past the player; the pool itself is never reallocated.
module Pipes {
  import opened Types
  import opened Levels

  const PIPE_HEIGHT: real := 20.0
  const NUM_PIPE_SEGMENTS: nat := 5
  /** Depth past which a segment is recycled. */
  const LEVEL_RECYCLE_Z: real := 15.0
  /** How much tighter the gap is when a segment carries no items. */
  const COINLESS_GAP_REDUCTION: real := 0.5
  /** Level progress after which item towers may appear. */
  const TOWER_START_PROGRESS: real := 0.2
  /** Chance of a tower at the end of a level. */
  const MAX_TOWER_CHANCE: real := 0.5
  /** Vertical distance between the items of a tower. */
  const ITEM_STEP: real := 1.8
  const ITEM_SLOTS: nat := 3
  /** Depth of the first segment when the pool is laid out. */
  const FIRST_SEGMENT_OFFSET: real := 15.0

  /** A pipe of the pair: whether it is shown, its height and its depth. */
  datatype Pipe = Pipe(visible: bool, y: real, z: real)

  /** An item slot: a star (coin) or a trap. Items always sit at x = 0. */
  datatype Item = Item(visible: bool, isTrap: bool, y: real, z: real)

  /** Three values indexed 0, 1, 2: the item slots of a segment and their trap rolls. */
  datatype Triple<T> = Triple(first: T, middle: T, last: T)
  {
    function At(i: nat): T
      requires i < 3
    {
      if i == 0 then first else if i == 1 then middle else last
    }

    function With(i: nat, x: T): (r: Triple<T>)
      requires i < 3
      ensures r.At(i) == x
      ensures forall j :: 0 <= j < 3 && j != i ==> r.At(j) == At(j)
    {
      if i == 0 then this.(first := x) else if i == 1 then this.(middle := x) else this.(last := x)
    }
  }

  /** A segment: the upper and lower pipe (`pipes[0]`, `pipes[1]` in the source), the
      three item slots, whether it has been passed, and its depth. */
  datatype Segment = Segment(upper: Pipe, lower: Pipe, items: Triple<Item>, passed: bool, positionZ: real)

  /** A segment with a hidden pipe is padding past the level's end, and padding always
      counts as passed: this is what keeps onPipePass from firing for it. */
  predicate HiddenPassed(s: Segment)
  {
    !s.upper.visible || !s.lower.visible ==> s.passed
  }

  /** Every segment of the pool keeps HiddenPassed. */
  predicate PoolSettled(segs: seq<Segment>)
  {
    forall i :: 0 <= i < |segs| ==> HiddenPassed(segs[i])
  }

  /** A freshly allocated segment, before its first reset (three.js objects start visible at the origin). */
  const NEW_SEGMENT: Segment :=
    var item := Item(true, false, 0.0, 0.0);
    Segment(Pipe(true, 0.0, 0.0), Pipe(true, 0.0, 0.0), Triple(item, item, item), false, 0.0)

  /** The random numbers one reset consumes, each drawn from [0, 1): the gap centre,
      the item roll, the tower roll and one trap roll per item slot. */
  datatype Draws = Draws(gap: real, coin: real, tower: real, trap: Triple<real>)

  predicate Unit(r: real)
  {
    0.0 <= r < 1.0
  }

  predicate ValidDraws(d: Draws)
  {
    Unit(d.gap) && Unit(d.coin) && Unit(d.tower) && Unit(d.trap.first) && Unit(d.trap.middle) && Unit(d.trap.last)
  }

  predicate AllValid(ds: seq<Draws>)
  {
    forall k :: 0 <= k < |ds| ==> ValidDraws(ds[k])
  }

  /** A segment whose index lies past the level's pipe count is padding: it is hidden. */
  predicate BeyondLevel(config: LevelConfig, pipeIndex: int)
  {
    config.pipeCount > 0 && pipeIndex >= config.pipeCount
  }

  function GapCenter(d: Draws): (g: real)
    requires ValidDraws(d)
    ensures -4.0 <= g < 4.0
  {
    d.gap * 8.0 - 4.0
  }

  predicate WithItems(config: LevelConfig, d: Draws)
  {
    d.coin < config.coinChance
  }

  /** The gap between the pipes: narrower when the segment carries no items. */
  function GapFor(config: LevelConfig, d: Draws): real
  {
    if WithItems(config, d) then config.gapHeight else config.gapHeight - COINLESS_GAP_REDUCTION
  }

  /** How far through the level a pipe index lies (0 for endless levels). */
  function Progress(pipeIndex: int, pipeCount: int): (p: real)
    ensures p >= 0.0
    ensures pipeCount > 0 && pipeIndex <= pipeCount ==> p <= 1.0
    ensures pipeCount > 0 && pipeIndex >= pipeCount ==> p >= 1.0
  {
    if pipeCount > 0 then (if pipeIndex > 0 then pipeIndex else 0) as real / pipeCount as real else 0.0
  }

  /** The chance of a three-item tower at a given progress: zero up to 20%, then
      ramping linearly to 50% at the end of the level, and never above that. */
  function TowerChance(progress: real): (t: real)
    ensures 0.0 <= t <= MAX_TOWER_CHANCE
    ensures progress <= TOWER_START_PROGRESS ==> t == 0.0
    ensures progress > TOWER_START_PROGRESS ==> t > 0.0
    ensures progress >= 1.0 ==> t == MAX_TOWER_CHANCE
  {
    if progress > TOWER_START_PROGRESS then
      Min(1.0, (progress - TOWER_START_PROGRESS) / (1.0 - TOWER_START_PROGRESS)) * MAX_TOWER_CHANCE
    else
      0.0
  }

  lemma TowerChanceMonotone(p: real, q: real)
    requires p <= q
    ensures TowerChance(p) <= TowerChance(q)
  {
  }

  /** How many item slots a reset fills: none, a single item or a tower of three. */
  function ItemCount(config: LevelConfig, pipeIndex: int, d: Draws): (n: nat)
    requires ValidDraws(d)
    ensures n == 0 || n == 1 || n == 3
    ensures n == 0 <==> !WithItems(config, d)
    ensures n == 3 ==> Progress(pipeIndex, config.pipeCount) > TOWER_START_PROGRESS
  {
    if !WithItems(config, d) then 0
    else if d.tower < TowerChance(Progress(pipeIndex, config.pipeCount)) then 3
    else 1
  }

  /** Item slot `i` after a visible reset that fills `count` slots. */
  function SlotAfter(prior: Item, i: nat, count: nat, center: real, z: real, draw: real, trapChance: real): Item
  {
    if i < count then
      var positionIndex := if count == 1 then 1 else i;
      var rolled := draw < trapChance;
      var single := if count == 1 then false else rolled;
      var isTrap := if single && positionIndex == 1 then false else single;
      Item(true, isTrap, center + (positionIndex - 1) as real * ITEM_STEP, z)
    else
      prior.(visible := false)
  }

  function HideItems(items: Triple<Item>): (r: Triple<Item>)
    ensures forall j :: 0 <= j < 3 ==> r.At(j) == items.At(j).(visible := false)
  {
    Triple(items.first.(visible := false), items.middle.(visible := false), items.last.(visible := false))
  }

  /** The segment `seg` after `resetPipeSegment(seg, z, config, pipeIndex)` with draws `d`. */
  function Regenerated(seg: Segment, z: real, config: LevelConfig, pipeIndex: int, d: Draws): (r: Segment)
    requires ValidDraws(d)
    ensures r.positionZ == z
    ensures r.passed <==> BeyondLevel(config, pipeIndex)
    ensures r.upper.visible <==> !BeyondLevel(config, pipeIndex)
    ensures r.lower.visible <==> !BeyondLevel(config, pipeIndex)
  {
    if BeyondLevel(config, pipeIndex) then
      seg.(positionZ := z, passed := true, upper := seg.upper.(visible := false),
           lower := seg.lower.(visible := false), items := HideItems(seg.items))
    else
      var center := GapCenter(d);
      var gap := GapFor(config, d);
      var count := ItemCount(config, pipeIndex, d);
      Segment(
        Pipe(true, center + gap / 2.0 + PIPE_HEIGHT / 2.0, z),
        Pipe(true, center - gap / 2.0 - PIPE_HEIGHT / 2.0, z),
        Triple(SlotAfter(seg.items.first, 0, count, center, z, d.trap.first, config.trapChance),
               SlotAfter(seg.items.middle, 1, count, center, z, d.trap.middle, config.trapChance),
               SlotAfter(seg.items.last, 2, count, center, z, d.trap.last, config.trapChance)),
        false,
        z)
  }

  /** Padding past the level's end is hidden entirely and already counts as passed. */
  lemma RegeneratedPadding(seg: Segment, z: real, config: LevelConfig, pipeIndex: int, d: Draws)
    requires ValidDraws(d) && BeyondLevel(config, pipeIndex)
    ensures var r := Regenerated(seg, z, config, pipeIndex, d);
      && r.passed
      && !r.upper.visible && !r.lower.visible
      && (forall i :: 0 <= i < 3 ==> !r.items.At(i).visible)
  {
  }

  /** A real obstacle is shown at depth z, not yet passed, its two pipes exactly the gap
      apart around GapCenter(d), and exactly the first ItemCount slots shown. */
  lemma RegeneratedObstacle(seg: Segment, z: real, config: LevelConfig, pipeIndex: int, d: Draws)
    requires ValidDraws(d) && !BeyondLevel(config, pipeIndex)
    ensures var r := Regenerated(seg, z, config, pipeIndex, d);
      && !r.passed
      && r.upper.visible && r.lower.visible
      && r.upper.z == z && r.lower.z == z
      && r.upper.y - r.lower.y == GapFor(config, d) + PIPE_HEIGHT
      && r.upper.y + r.lower.y == 2.0 * GapCenter(d)
      && (forall i :: 0 <= i < 3 ==> (r.items.At(i).visible <==> i < ItemCount(config, pipeIndex, d)))
      && (forall i :: 0 <= i < ItemCount(config, pipeIndex, d) ==> r.items.At(i).z == z)
  {
  }

  /** A single item sits at the gap centre and is never a trap; a tower is stacked one
      ITEM_STEP apart around the centre, its middle item is never a trap and each outer
      item is a trap exactly when its draw falls below the level's trap chance. */
  lemma RegeneratedItems(seg: Segment, z: real, config: LevelConfig, pipeIndex: int, d: Draws)
    requires ValidDraws(d) && !BeyondLevel(config, pipeIndex)
    ensures var r := Regenerated(seg, z, config, pipeIndex, d);
      ItemCount(config, pipeIndex, d) == 1 ==> r.items.first.y == GapCenter(d) && !r.items.first.isTrap
    ensures var r := Regenerated(seg, z, config, pipeIndex, d);
      ItemCount(config, pipeIndex, d) == 3 ==>
        && r.items.first.y == GapCenter(d) - ITEM_STEP
        && r.items.middle.y == GapCenter(d)
        && r.items.last.y == GapCenter(d) + ITEM_STEP
        && !r.items.middle.isTrap
        && (r.items.first.isTrap <==> d.trap.first < config.trapChance)
        && (r.items.last.isTrap <==> d.trap.last < config.trapChance)
  {
  }

  /** Early in a level (progress at most 20%) no reset ever builds a tower. */
  lemma NoEarlyTowers(config: LevelConfig, pipeIndex: int, d: Draws)
    requires ValidDraws(d)
    requires Progress(pipeIndex, config.pipeCount) <= TOWER_START_PROGRESS
    ensures ItemCount(config, pipeIndex, d) != 3
  {
  }

  /** resetPipeSegment: regenerates one segment in place, filling the item slots in a counted loop. */
  method ResetPipeSegment(segment: Segment, zPosition: real, config: LevelConfig, pipeIndex: int, d: Draws)
    returns (s: Segment)
    requires ValidDraws(d)
    ensures s == Regenerated(segment, zPosition, config, pipeIndex, d)
  {
    s := segment.(positionZ := zPosition, passed := false);
    if config.pipeCount > 0 && pipeIndex >= config.pipeCount {
      s := s.(upper := s.upper.(visible := false), lower := s.lower.(visible := false),
              items := HideItems(s.items), passed := true);
      return;
    }
    var gapCenter := d.gap * 8.0 - 4.0;
    var coinCount: nat := 0;
    var willHaveCoins := d.coin < config.coinChance;
    var currentGapHeight := if willHaveCoins then config.gapHeight else config.gapHeight - COINLESS_GAP_REDUCTION;
    s := s.(upper := Pipe(true, gapCenter + currentGapHeight / 2.0 + PIPE_HEIGHT / 2.0, zPosition),
            lower := Pipe(true, gapCenter - currentGapHeight / 2.0 - PIPE_HEIGHT / 2.0, zPosition));
    if willHaveCoins {
      var progress := if config.pipeCount > 0 then (if pipeIndex > 0 then pipeIndex else 0) as real / config.pipeCount as real else 0.0;
      var towerChance := 0.0;
      if progress > TOWER_START_PROGRESS {
        var normalizedProgress := (progress - TOWER_START_PROGRESS) / (1.0 - TOWER_START_PROGRESS);
        towerChance := Min(1.0, normalizedProgress) * MAX_TOWER_CHANCE;
      }
      var hasTower := d.tower < towerChance;
      coinCount := if hasTower then 3 else 1;
    }
    assert coinCount == ItemCount(config, pipeIndex, d);
    var items := s.items;
    for i := 0 to ITEM_SLOTS
      invariant forall j :: 0 <= j < i ==>
        items.At(j) == SlotAfter(segment.items.At(j), j, coinCount, gapCenter, zPosition, d.trap.At(j), config.trapChance)
      invariant forall j :: i <= j < 3 ==> items.At(j) == segment.items.At(j)
    {
      if i < coinCount {
        var isTrap := d.trap.At(i) < config.trapChance;
        if coinCount == 1 {
          isTrap := false;
        }
        var positionIndex := if coinCount == 1 then 1 else i;
        if isTrap && positionIndex == 1 {
          isTrap := false;
        }
        items := items.With(i, Item(true, isTrap, gapCenter + (positionIndex - 1) as real * ITEM_STEP, zPosition));
      } else {
        items := items.With(i, items.At(i).(visible := false));
      }
    }
    assert items == Triple(items.At(0), items.At(1), items.At(2));
    s := s.(items := items);
  }

  /** The non-recycled branch of movePipes: pipes and items follow the segment's depth. */
  function Translated(seg: Segment): (r: Segment)
    ensures r.positionZ == seg.positionZ && r.passed == seg.passed
    ensures r.upper == seg.upper.(z := seg.positionZ) && r.lower == seg.lower.(z := seg.positionZ)
    ensures forall j :: 0 <= j < 3 ==> r.items.At(j) == seg.items.At(j).(z := seg.positionZ)
  {
    var z := seg.positionZ;
    seg.(upper := seg.upper.(z := z), lower := seg.lower.(z := z),
         items := Triple(seg.items.first.(z := z), seg.items.middle.(z := z), seg.items.last.(z := z)))
  }

  /** One segment after one iteration of movePipes' loop; `fired` says whether
      onPipePass was called for it. */
  datatype Moved = Moved(seg: Segment, recycled: bool, fired: bool)

  function MoveSegment(seg: Segment, moveZ: real, cycle: real, config: LevelConfig, counter: nat, d: Draws): (m: Moved)
    requires ValidDraws(d)
    ensures m.recycled <==> seg.positionZ + moveZ > LEVEL_RECYCLE_Z
    ensures m.seg.positionZ == if m.recycled then seg.positionZ + moveZ - cycle else seg.positionZ + moveZ
  {
    var z := seg.positionZ + moveZ;
    var moved := seg.(positionZ := z);
    var recycled := z > LEVEL_RECYCLE_Z;
    var placed := if recycled then Regenerated(moved, z - cycle, config, counter, d) else Translated(moved);
    if !placed.passed && placed.positionZ > 0.0 then
      Moved(placed.(passed := true), recycled, true)
    else
      Moved(placed, recycled, false)
  }

  /** The pass rule of one movePipes step: onPipePass fires exactly when a shown
      segment's `passed` flag flips ahead of the player (z > 0), every segment ahead of
      the player ends up passed, and regenerated padding never fires. */
  lemma PassRule(seg: Segment, moveZ: real, cycle: real, config: LevelConfig, counter: nat, d: Draws)
    requires ValidDraws(d)
    ensures var m := MoveSegment(seg, moveZ, cycle, config, counter, d);
      && (m.fired ==> m.seg.passed && m.seg.positionZ > 0.0)
      && (m.seg.positionZ > 0.0 ==> m.seg.passed)
      && (!m.recycled ==> (m.fired <==> !seg.passed && m.seg.positionZ > 0.0))
      && (!m.recycled && !m.fired ==> m.seg.passed == seg.passed)
      && (m.recycled ==> (m.fired <==> !BeyondLevel(config, counter) && m.seg.positionZ > 0.0))
      && (m.recycled && BeyondLevel(config, counter) ==>
            !m.fired && !m.seg.upper.visible && !m.seg.lower.visible)
      && (HiddenPassed(seg) ==> HiddenPassed(m.seg) && (m.fired ==> m.seg.upper.visible && m.seg.lower.visible))
  {
    var z := seg.positionZ + moveZ;
    if z > LEVEL_RECYCLE_Z && BeyondLevel(config, counter) {
      RegeneratedPadding(seg.(positionZ := z), z - cycle, config, counter, d);
    }
  }

  /** One iteration of movePipes' loop: scroll, regenerate past the recycle depth,
      then flip `passed` (and fire) once the segment is ahead of the player. */
  method MoveOne(segment: Segment, moveZ: real, totalCycleDistance: real, config: LevelConfig, counter: nat, d: Draws)
    returns (s: Segment, recycled: bool, fire: bool)
    requires ValidDraws(d)
    ensures Moved(s, recycled, fire) == MoveSegment(segment, moveZ, totalCycleDistance, config, counter, d)
  {
    s := segment.(positionZ := segment.positionZ + moveZ);
    recycled := s.positionZ > LEVEL_RECYCLE_Z;
    if recycled {
      s := ResetPipeSegment(s, s.positionZ - totalCycleDistance, config, counter, d);
    } else {
      s := Translated(s);
    }
    fire := false;
    if !s.passed && s.positionZ > 0.0 {
      s := s.(passed := true);
      fire := true;
    }
  }

  /** The pool after one call of movePipes, the generation counter, and which segments fired. */
  datatype Swept = Swept(segs: seq<Segment>, counter: nat, fired: seq<bool>)

  /** How many segments of `segs` cross the recycle depth when moved by `moveZ`. */
  function Recycles(segs: seq<Segment>, moveZ: real): (n: nat)
    ensures n <= |segs|
  {
    if segs == [] then 0
    else Recycles(segs[..|segs| - 1], moveZ) + (if segs[|segs| - 1].positionZ + moveZ > LEVEL_RECYCLE_Z then 1 else 0)
  }

  function Sweep(segs: seq<Segment>, moveZ: real, cycle: real, config: LevelConfig, counter: nat, ds: seq<Draws>): (r: Swept)
    requires |ds| >= |segs| && AllValid(ds)
    ensures |r.segs| == |segs| && |r.fired| == |segs|
    ensures r.counter == counter + Recycles(segs, moveZ)
    decreases |segs|
  {
    if segs == [] then Swept([], counter, [])
    else
      var n := |segs| - 1;
      var prev := Sweep(segs[..n], moveZ, cycle, config, counter, ds);
      var m := MoveSegment(segs[n], moveZ, cycle, config, prev.counter, ds[n]);
      Swept(prev.segs + [m.seg], prev.counter + (if m.recycled then 1 else 0), prev.fired + [m.fired])
  }

  /** movePipes' sweep at `level`: every segment moves gameSpeed * delta, and the pool
      spans NUM_PIPE_SEGMENTS spacings. */
  function Scrolled(segs: seq<Segment>, level: int, delta: real, counter: nat, ds: seq<Draws>): Swept
    requires level >= 1 && |ds| >= |segs| && AllValid(ds)
  {
    ScrolledWith(segs, GetLevelConfig(level), delta, counter, ds)
  }

  /** The same sweep once the level's configuration is known. */
  function ScrolledWith(segs: seq<Segment>, config: LevelConfig, delta: real, counter: nat, ds: seq<Draws>): Swept
    requires |ds| >= |segs| && AllValid(ds)
  {
    Sweep(segs, Distance(config, delta), Cycle(config), config, counter, ds)
  }

  /** How far the pool moves in a frame of `delta` seconds. */
  function Distance(config: LevelConfig, delta: real): real
  {
    config.gameSpeed * delta
  }

  /** The depth of the whole pool: one pipe spacing per segment. */
  function Cycle(config: LevelConfig): real
  {
    NUM_PIPE_SEGMENTS as real * config.pipeSpacing
  }

  /** Segment k of a sweep is moved with the counter left by the segments before it. */
  lemma {:induction false} SweepAt(segs: seq<Segment>, moveZ: real, cycle: real, config: LevelConfig, counter: nat, ds: seq<Draws>, k: nat)
    requires |ds| >= |segs| && AllValid(ds)
    requires k < |segs|
    ensures Sweep(segs, moveZ, cycle, config, counter, ds).segs[k]
      == MoveSegment(segs[k], moveZ, cycle, config, counter + Recycles(segs[..k], moveZ), ds[k]).seg
    ensures Sweep(segs, moveZ, cycle, config, counter, ds).fired[k]
      == MoveSegment(segs[k], moveZ, cycle, config, counter + Recycles(segs[..k], moveZ), ds[k]).fired
  {
    var n := |segs| - 1;
    var whole := Sweep(segs, moveZ, cycle, config, counter, ds);
    var prev := Sweep(segs[..n], moveZ, cycle, config, counter, ds);
    var m := MoveSegment(segs[n], moveZ, cycle, config, prev.counter, ds[n]);
    assert whole.segs == prev.segs + [m.seg] && whole.fired == prev.fired + [m.fired];
    if k < n {
      SweepAt(segs[..n], moveZ, cycle, config, counter, ds, k);
      assert segs[..n][..k] == segs[..k];
      assert segs[..n][k] == segs[k];
      assert whole.segs[k] == prev.segs[k];
      assert whole.fired[k] == prev.fired[k];
    } else {
      assert segs[..k] == segs[..n];
    }
  }

  /** Pipe-pass bookkeeping of one sweep: a segment fires only when its `passed` flag
      flips ahead of the player, an already-passed segment fires only after it is
      regenerated, and once the counter is past the level's end nothing fires. */
  lemma PassFiresOnFlip(segs: seq<Segment>, moveZ: real, cycle: real, config: LevelConfig, counter: nat, ds: seq<Draws>, k: nat)
    requires |ds| >= |segs| && AllValid(ds)
    requires k < |segs|
    ensures var r := Sweep(segs, moveZ, cycle, config, counter, ds);
      && (r.fired[k] ==> r.segs[k].passed && r.segs[k].positionZ > 0.0)
      && (r.segs[k].positionZ > 0.0 ==> r.segs[k].passed)
      && (r.fired[k] && segs[k].passed ==> segs[k].positionZ + moveZ > LEVEL_RECYCLE_Z)
      && (BeyondLevel(config, counter) && segs[k].passed ==> !r.fired[k])
      && (HiddenPassed(segs[k]) ==> HiddenPassed(r.segs[k]) && (r.fired[k] ==> r.segs[k].upper.visible && r.segs[k].lower.visible))
      && (HiddenPassed(segs[k]) && !segs[k].upper.visible && segs[k].positionZ + moveZ <= LEVEL_RECYCLE_Z ==> !r.fired[k])
  {
    SweepAt(segs, moveZ, cycle, config, counter, ds, k);
    PassRule(segs[k], moveZ, cycle, config, counter + Recycles(segs[..k], moveZ), ds[k]);
  }

  /** A sweep keeps every segment of a settled pool settled. */
  lemma {:induction false} SweepSettles(segs: seq<Segment>, moveZ: real, cycle: real, config: LevelConfig, counter: nat, ds: seq<Draws>)
    requires |ds| >= |segs| && AllValid(ds)
    requires PoolSettled(segs)
    ensures PoolSettled(Sweep(segs, moveZ, cycle, config, counter, ds).segs)
  {
    var r := Sweep(segs, moveZ, cycle, config, counter, ds);
    forall k | 0 <= k < |r.segs|
      ensures HiddenPassed(r.segs[k])
    {
      PassFiresOnFlip(segs, moveZ, cycle, config, counter, ds, k);
    }
  }

  /** Segment i of the pool when it is laid out: the existing one, or a fresh one on the first call. */
  function Allocated(before: seq<Segment>, i: nat): Segment
    requires before == [] || i < |before|
  {
    if before == [] then NEW_SEGMENT else before[i]
  }

  /** Where initializeAndReset places segment i: one pipe spacing apart, starting at -15. */
  function StartDepth(config: LevelConfig, i: nat): real
  {
    -(i as real) * config.pipeSpacing - FIRST_SEGMENT_OFFSET
  }

  /** The pool `after` is `before` laid out afresh for `config`: segment i regenerated at
      StartDepth(config, i) as pipe number i. */
  ghost predicate LaidOut(before: seq<Segment>, after: seq<Segment>, config: LevelConfig, draws: seq<Draws>)
    requires |draws| >= NUM_PIPE_SEGMENTS && AllValid(draws)
  {
    && (before == [] || |before| == NUM_PIPE_SEGMENTS)
    && |after| == NUM_PIPE_SEGMENTS
    && forall i :: 0 <= i < NUM_PIPE_SEGMENTS ==>
         after[i] == Regenerated(Allocated(before, i), StartDepth(config, i), config, i, draws[i])
  }

  class PipeSystem {
    var segments: seq<Segment>
    var generationCounter: nat
    /** The pipe material's colour, set from the level. */
    var color: string

    ghost predicate Valid()
      reads this
    {
      && (|segments| == 0 || |segments| == NUM_PIPE_SEGMENTS)
      && PoolSettled(segments)
    }

    constructor ()
      ensures Valid() && segments == [] && generationCounter == 0 && color == "#4CAF50"
    {
      segments := [];
      generationCounter := 0;
      color := "#4CAF50";
    }

    /** initializeAndReset: allocates the five segments on the first call only, then
        lays segment i out at depth -i * pipeSpacing - 15 as pipe number i. */
    method InitializeAndReset(levelToInit: int, draws: seq<Draws>)
      requires Valid() && levelToInit >= 1
      requires |draws| >= NUM_PIPE_SEGMENTS && AllValid(draws)
      modifies this
      ensures Valid() && |segments| == NUM_PIPE_SEGMENTS && generationCounter == NUM_PIPE_SEGMENTS
      ensures var config := GetLevelConfig(levelToInit);
        && color == config.color
        && LaidOut(old(segments), segments, config, draws)
        // every level is longer than the pool, so the whole first layout is live and unpassed
        && forall i :: 0 <= i < NUM_PIPE_SEGMENTS ==>
             !segments[i].passed && segments[i].upper.visible && segments[i].lower.visible
    {
      var config := GetLevelConfig(levelToInit);
      color := config.color;
      ConfigSane(levelToInit);
      if |segments| == 0 {
        AllocateSegments();
      }
      LayOut(config, draws);
    }

    /** The first-call branch of initializeAndReset: five fresh segments. */
    method AllocateSegments()
      requires segments == []
      modifies this
      ensures segments == [NEW_SEGMENT, NEW_SEGMENT, NEW_SEGMENT, NEW_SEGMENT, NEW_SEGMENT]
      ensures color == old(color) && generationCounter == old(generationCounter)
    {
      for i := 0 to NUM_PIPE_SEGMENTS
        invariant |segments| == i && color == old(color) && generationCounter == old(generationCounter)
        invariant forall k :: 0 <= k < i ==> segments[k] == NEW_SEGMENT
      {
        segments := segments + [NEW_SEGMENT];
      }
    }

    /** The reset loop of initializeAndReset once the level's configuration is known. */
    method LayOut(config: LevelConfig, draws: seq<Draws>)
      requires |segments| == NUM_PIPE_SEGMENTS
      requires |draws| >= NUM_PIPE_SEGMENTS && AllValid(draws)
      modifies this
      ensures |segments| == NUM_PIPE_SEGMENTS && generationCounter == NUM_PIPE_SEGMENTS
      ensures color == old(color)
      ensures forall i :: 0 <= i < NUM_PIPE_SEGMENTS ==>
        segments[i] == Regenerated(old(segments)[i], StartDepth(config, i), config, i, draws[i])
      ensures config.pipeCount >= NUM_PIPE_SEGMENTS ==>
        forall i :: 0 <= i < NUM_PIPE_SEGMENTS ==>
          !segments[i].passed && segments[i].upper.visible && segments[i].lower.visible
    {
      for i := 0 to |segments|
        invariant |segments| == NUM_PIPE_SEGMENTS && color == old(color)
        invariant forall k :: 0 <= k < i ==>
          segments[k] == Regenerated(old(segments)[k], StartDepth(config, k), config, k, draws[k])
        invariant forall k :: i <= k < NUM_PIPE_SEGMENTS ==> segments[k] == old(segments)[k]
      {
        var s := ResetPipeSegment(segments[i], StartDepth(config, i), config, i, draws[i]);
        segments := segments[i := s];
      }
      generationCounter := NUM_PIPE_SEGMENTS;
      if config.pipeCount >= NUM_PIPE_SEGMENTS {
        forall i | 0 <= i < NUM_PIPE_SEGMENTS
          ensures !segments[i].passed && segments[i].upper.visible && segments[i].lower.visible
        {
          RegeneratedObstacle(old(segments)[i], StartDepth(config, i), config, i, draws[i]);
        }
      }
    }

    /** The pool's own effect: it re-lays the pool whenever player 1 is ready or on the menu. */
    method OnGameState(gameState: GameState, level: int, draws: seq<Draws>)
      requires Valid() && level >= 1
      requires |draws| >= NUM_PIPE_SEGMENTS && AllValid(draws)
      modifies this
      ensures Valid()
      ensures gameState != Ready && gameState != Start ==>
        segments == old(segments) && generationCounter == old(generationCounter) && color == old(color)
      ensures gameState == Ready || gameState == Start ==>
        && |segments| == NUM_PIPE_SEGMENTS && generationCounter == NUM_PIPE_SEGMENTS
        && color == GetLevelConfig(level).color
        && LaidOut(old(segments), segments, GetLevelConfig(level), draws)
    {
      if gameState == Ready || gameState == Start {
        InitializeAndReset(level, draws);
      }
    }

    /** movePipes: scrolls every segment by gameSpeed * delta, regenerates those past the
        recycle depth one pool length further back under the next pipe number, and
        reports (in `fired`) the segments for which onPipePass was called. */
    method MovePipes(delta: real, level: int, draws: seq<Draws>) returns (fired: seq<bool>)
      requires Valid() && level >= 1
      requires |draws| >= |segments| && AllValid(draws)
      modifies this
      ensures Valid() && color == old(color)
      ensures Swept(segments, generationCounter, fired) == Scrolled(old(segments), level, delta, old(generationCounter), draws)
    {
      fired := Scroll(delta, GetLevelConfig(level), draws);
    }

    /** The loop of movePipes once the level's configuration is known. */
    method Scroll(delta: real, config: LevelConfig, draws: seq<Draws>) returns (fired: seq<bool>)
      requires Valid()
      requires |draws| >= |segments| && AllValid(draws)
      modifies this
      ensures Valid() && color == old(color)
      ensures Swept(segments, generationCounter, fired) == ScrolledWith(old(segments), config, delta, old(generationCounter), draws)
    {
      var moveZ := Distance(config, delta);
      var totalCycleDistance := Cycle(config);
      ghost var counter0 := generationCounter;
      var moved: seq<Segment> := [];
      fired := [];
      for k := 0 to |segments|
        invariant color == old(color) && segments == old(segments)
        invariant Swept(moved, generationCounter, fired)
          == Sweep(segments[..k], moveZ, totalCycleDistance, config, counter0, draws)
      {
        assert segments[..k + 1][..k] == segments[..k];
        var segment, recycled, fire := MoveOne(segments[k], moveZ, totalCycleDistance, config, generationCounter, draws[k]);
        if recycled {
          generationCounter := generationCounter + 1;
        }
        moved := moved + [segment];
        fired := fired + [fire];
      }
      assert segments[..|segments|] == segments;
      SweepSettles(segments, moveZ, totalCycleDistance, config, counter0, draws);
      segments := moved;
    }
  }
}
