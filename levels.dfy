// The level table (levelConfig.ts): ten constant tuning records and the lookup
// that clamps requests past the last level.
module Levels {

  datatype LevelConfig = LevelConfig(
    gameSpeed: real,
    gapHeight: real,
    pipeSpacing: real,
    pipeCount: int,
    color: string,
    trapChance: real,
    coinChance: real)

  const LEVELS: seq<LevelConfig> := [
    LevelConfig(3.2, 5.8, 10.0, 10, "#4CAF50", 0.10, 0.95),
    LevelConfig(3.4, 5.6, 9.8, 12, "#8BC34A", 0.12, 0.95),
    LevelConfig(3.6, 5.4, 9.6, 14, "#CDDC39", 0.15, 0.90),
    LevelConfig(3.8, 5.2, 9.4, 16, "#FFEB3B", 0.18, 0.90),
    LevelConfig(4.0, 5.0, 9.2, 18, "#FFC107", 0.22, 0.85),
    LevelConfig(4.2, 4.8, 9.0, 20, "#FF9800", 0.26, 0.85),
    LevelConfig(4.4, 4.6, 8.8, 22, "#F44336", 0.30, 0.80),
    LevelConfig(4.6, 4.4, 8.6, 24, "#E91E63", 0.35, 0.80),
    LevelConfig(4.8, 4.2, 8.4, 26, "#9C27B0", 0.40, 0.75),
    LevelConfig(5.0, 4.0, 8.2, 30, "#3F51B5", 0.45, 0.75)
  ]

  /** The number of defined levels: the length of the table. */
  const MAX_LEVELS: nat := |LEVELS|

  /** The configuration of `level`, clamped to the last entry above the table.
      Levels below 1 would index before the table, so callers must pass at least 1. */
  function GetLevelConfig(level: int): (c: LevelConfig)
    requires level >= 1
    ensures level <= MAX_LEVELS ==> c == LEVELS[level - 1]
    ensures level >= MAX_LEVELS ==> c == LEVELS[MAX_LEVELS - 1]
  {
    LEVELS[if level - 1 <= |LEVELS| - 1 then level - 1 else |LEVELS| - 1]
  }

  /** A configuration the rest of the game can rely on. */
  ghost predicate Sane(c: LevelConfig)
  {
    && c.gameSpeed > 0.0
    && c.pipeSpacing > 0.0
    && c.pipeCount > 0
    && 0.0 <= c.trapChance <= 1.0
    && 0.0 <= c.coinChance <= 1.0
  }

  /** `b` is at least as hard as `a`: faster, more pipes, narrower gaps and
      closer spacing, no fewer traps and no more coins. */
  ghost predicate Harder(a: LevelConfig, b: LevelConfig)
  {
    && a.gameSpeed < b.gameSpeed
    && a.pipeCount < b.pipeCount
    && b.gapHeight < a.gapHeight
    && b.pipeSpacing < a.pipeSpacing
    && a.trapChance <= b.trapChance
    && b.coinChance <= a.coinChance
  }

  lemma MaxLevelsIsTen()
    ensures MAX_LEVELS == 10
  {
  }

  /** Every table entry is sane. */
  lemma TableSane(i: int)
    requires 0 <= i < MAX_LEVELS
    ensures Sane(LEVELS[i])
  {
  }

  /** Each level is strictly harder than the one before it. */
  lemma TableGetsHarder(i: int)
    requires 0 <= i < MAX_LEVELS - 1
    ensures Harder(LEVELS[i], LEVELS[i + 1])
  {
  }

  /** Difficulty never decreases as the requested level grows, clamping included. */
  lemma {:induction false} HarderWithLevel(a: int, b: int)
    requires 1 <= a <= b
    ensures GetLevelConfig(a).gameSpeed <= GetLevelConfig(b).gameSpeed
    ensures GetLevelConfig(a).pipeCount <= GetLevelConfig(b).pipeCount
    ensures GetLevelConfig(b).gapHeight <= GetLevelConfig(a).gapHeight
    ensures GetLevelConfig(a).trapChance <= GetLevelConfig(b).trapChance
    ensures GetLevelConfig(b).coinChance <= GetLevelConfig(a).coinChance
  {
    if a < b {
      HarderWithLevel(a, b - 1);
      if b <= MAX_LEVELS {
        TableGetsHarder(b - 2);
      }
    }
  }

  /** Every request past the table yields the last level in every field. */
  lemma ClampsPastLastLevel(level: int)
    requires level >= MAX_LEVELS
    ensures GetLevelConfig(level) == GetLevelConfig(MAX_LEVELS)
  {
  }

  /** Level 11 on the ten-level table is level 10, field for field. */
  lemma LevelElevenIsLevelTen()
    ensures GetLevelConfig(11) == GetLevelConfig(10)
    ensures GetLevelConfig(11).gameSpeed == 5.0 && GetLevelConfig(11).pipeCount == 30
  {
  }

  /** The first level's speed and length. */
  lemma FirstLevel()
    ensures GetLevelConfig(1).gameSpeed == 3.2 && GetLevelConfig(1).pipeCount == 10
  {
  }

  /** Every reachable configuration is sane and has at least ten pipes. */
  lemma {:induction false} ConfigSane(level: int)
    requires level >= 1
    ensures Sane(GetLevelConfig(level))
    ensures GetLevelConfig(level).pipeCount >= 10
  {
    HarderWithLevel(1, level);
    TableSane(if level <= MAX_LEVELS then level - 1 else MAX_LEVELS - 1);
  }
}
