// The match state machine (App.tsx): per-player records, the match mode and level,
// the flap recording that the ghost replays, the save slot, and one handler per
// game event, each an atomic transition of the state it reads.
module App {
  import opened Types
  import opened Levels
  import SceneSim

  const STARTING_LIVES: int := 6
  /** Lives restored by "Resume Level". */
  const RESUME_LIVES: int := 3
  /** Lives a game-over player is revived with in a challenge. */
  const REVIVE_LIVES: int := 1
  const PIPE_POINTS: int := 100
  const COIN_POINTS: int := 25
  /** Star coins that buy an extra life. */
  const COINS_PER_LIFE: int := 25

  /** One player's state and figures; `canScore` is cleared once a challenger is out. */
  datatype Player = Player(state: GameState, score: int, lives: int, starCoins: int, pipesPassed: int, canScore: bool)

  /** resetPlayerData: a fresh run, ready to fly. */
  const FRESH: Player := Player(Ready, 0, STARTING_LIVES, 0, 0, true)

  /** A slot before any game: on the start menu with the default figures. */
  const UNSTARTED: Player := Player(Start, 0, STARTING_LIVES, 0, 0, true)

  /** The figures every handler keeps in range: no negative score or pipe count, and
      fewer star coins than buy a life. */
  predicate Tidy(p: Player)
  {
    p.score >= 0 && p.pipesPassed >= 0 && 0 <= p.starCoins < COINS_PER_LIFE
  }

  // ---------------------------------------------------------------- crash and trap

  /** The crash and trap handlers: a scoring player loses one life and is out once
      none are left; a player who cannot score is untouched. */
  function Hurt(p: Player): (r: Player)
    ensures !p.canScore ==> r == p
    ensures p.canScore ==> r.lives == p.lives - 1
    ensures p.canScore ==> (r.state == GameOver <==> p.lives <= 1 || p.state == GameOver)
    ensures p.canScore && p.lives > 1 ==> r.state == p.state
    ensures r.score == p.score && r.starCoins == p.starCoins && r.pipesPassed == p.pipesPassed
    ensures r.canScore == p.canScore
  {
    if !p.canScore then p
    else
      var lives := p.lives - 1;
      p.(lives := lives, state := if lives <= 0 then GameOver else p.state)
  }

  /** The player after `n` crashes or traps. */
  function Hurts(p: Player, n: nat): Player
  {
    if n == 0 then p else Hurt(Hurts(p, n - 1))
  }

  /** A fresh run survives five hits and ends on the sixth. */
  lemma {:induction false} SixHitsEndARun(n: nat)
    ensures Hurts(FRESH, n) == FRESH.(lives := STARTING_LIVES - n, state := if n >= 6 then GameOver else Ready)
  {
    if n > 0 {
      SixHitsEndARun(n - 1);
    }
  }

  // ---------------------------------------------------------------- star coins

  /** The coin handler: 25 points and a star coin; the 25th coin turns into a life. */
  function Collect(p: Player): (r: Player)
    ensures !p.canScore ==> r == p
    ensures p.canScore ==> r.score == p.score + COIN_POINTS
    ensures p.canScore ==> (r.lives == p.lives + 1 <==> p.starCoins + 1 >= COINS_PER_LIFE)
    ensures r.lives == p.lives || r.lives == p.lives + 1
    ensures Tidy(p) ==> Tidy(r)
    ensures r.state == p.state && r.pipesPassed == p.pipesPassed && r.canScore == p.canScore
  {
    if !p.canScore then p
    else
      var coins := p.starCoins + 1;
      if coins >= COINS_PER_LIFE then p.(score := p.score + COIN_POINTS, starCoins := 0, lives := p.lives + 1)
      else p.(score := p.score + COIN_POINTS, starCoins := coins)
  }

  function Collects(p: Player, n: nat): Player
  {
    if n == 0 then p else Collect(Collects(p, n - 1))
  }

  /** Below the threshold every coin is simply counted. */
  lemma {:induction false} CoinsAccumulate(p: Player, n: nat)
    requires p.canScore && 0 <= p.starCoins && p.starCoins + n < COINS_PER_LIFE
    ensures Collects(p, n) == p.(score := p.score + COIN_POINTS * n, starCoins := p.starCoins + n)
  {
    if n > 0 {
      CoinsAccumulate(p, n - 1);
    }
  }

  /** Twenty-five stars from an empty count buy exactly one life and leave the count empty. */
  lemma TwentyFiveStarsBuyALife(p: Player)
    requires p.canScore && p.starCoins == 0
    ensures Collects(p, 25) == p.(score := p.score + 25 * COIN_POINTS, lives := p.lives + 1)
  {
    CoinsAccumulate(p, 24);
  }

  // ---------------------------------------------------------------- pipe passes

  /** handleNextLevel's `levelComplete` test, also used by the pipe-pass handler. */
  predicate LevelDone(pipesPassed: int, pipeCount: int)
  {
    pipesPassed >= pipeCount && pipeCount > 0
  }

  /** The pipe-pass handler: 100 points and one more pipe; reaching the level's pipe
      count completes the level. */
  function PassPipe(p: Player, pipeCount: int): (r: Player)
    ensures !p.canScore ==> r == p
    ensures p.canScore ==> r.score == p.score + PIPE_POINTS && r.pipesPassed == p.pipesPassed + 1
    ensures p.canScore ==> (r.state == LevelComplete <==> LevelDone(r.pipesPassed, pipeCount) || p.state == LevelComplete)
    ensures r.lives == p.lives && r.starCoins == p.starCoins && r.canScore == p.canScore
  {
    if !p.canScore then p
    else
      var count := p.pipesPassed + 1;
      p.(score := p.score + PIPE_POINTS, pipesPassed := count,
         state := if LevelDone(count, pipeCount) then LevelComplete else p.state)
  }

  function Passes(p: Player, n: nat, pipeCount: int): Player
  {
    if n == 0 then p else PassPipe(Passes(p, n - 1, pipeCount), pipeCount)
  }

  /** From a fresh count, a level completes exactly when its pipe count is reached. */
  lemma {:induction false} LevelEndsAtPipeCount(p: Player, n: nat, pipeCount: int)
    requires p.canScore && p.pipesPassed == 0 && p.state != LevelComplete && pipeCount > 0
    ensures Passes(p, n, pipeCount)
      == p.(score := p.score + PIPE_POINTS * n, pipesPassed := n,
            state := if n >= pipeCount then LevelComplete else p.state)
  {
    if n > 0 {
      LevelEndsAtPipeCount(p, n - 1, pipeCount);
    }
  }

  /** The first level takes ten pipes. */
  lemma FirstLevelTakesTenPipes(p: Player, n: nat)
    requires p.canScore && p.pipesPassed == 0 && p.state == Playing
    ensures Passes(p, n, GetLevelConfig(1).pipeCount).state == LevelComplete <==> n >= 10
  {
    FirstLevel();
    LevelEndsAtPipeCount(p, n, 10);
  }

  // ---------------------------------------------------------------- pause

  /** Single-player pause: playing pauses, anything else resumes play. */
  function SinglePause(s: GameState): GameState
  {
    if s == Playing then Paused else Playing
  }

  lemma SinglePauseToggles(s: GameState)
    requires s == Playing || s == Paused
    ensures SinglePause(s) != s && SinglePause(SinglePause(s)) == s
  {
  }

  datatype States = States(p1: GameState, p2: GameState)

  /** Challenge pause: if anyone plays, every player who plays pauses; otherwise every
      paused player resumes. */
  function ChallengePause(s1: GameState, s2: GameState): (r: States)
    ensures s1 == Playing || s2 == Playing ==> r.p1 != Playing && r.p2 != Playing
    ensures r.p1 != s1 ==> (s1 == Playing && r.p1 == Paused) || (s1 == Paused && r.p1 == Playing)
    ensures r.p2 != s2 ==> (s2 == Playing && r.p2 == Paused) || (s2 == Paused && r.p2 == Playing)
    ensures s1 != Playing && s2 != Playing ==>
      (s1 == Paused ==> r.p1 == Playing) && (s2 == Paused ==> r.p2 == Playing)
    ensures s1 == Playing || s2 == Playing ==> (s1 == Playing ==> r.p1 == Paused) && (s2 == Playing ==> r.p2 == Paused)
  {
    if s1 == Playing || s2 == Playing then
      States(if s1 == Playing then Paused else s1, if s2 == Playing then Paused else s2)
    else
      States(if s1 == Paused then Playing else s1, if s2 == Paused then Playing else s2)
  }

  /** Pausing a match where nobody was paused and then pressing again restores it. */
  lemma ChallengePauseRoundTrip(s1: GameState, s2: GameState)
    requires s1 == Playing || s2 == Playing
    requires s1 != Paused && s2 != Paused
    ensures var r := ChallengePause(s1, s2); ChallengePause(r.p1, r.p2) == States(s1, s2)
  {
  }

  /** The pause button is symmetric in a challenge: with one player flying and the
      other paused, a press pauses both and the next press resumes both. */
  lemma VersusPauseSymmetry()
    ensures ChallengePause(Playing, Paused) == States(Paused, Paused)
    ensures ChallengePause(Paused, Playing) == States(Paused, Paused)
    ensures ChallengePause(Paused, Paused) == States(Playing, Playing)
  {
  }

  // ---------------------------------------------------------------- challenge sync

  datatype Players = Players(p1: Player, p2: Player)

  /** One pass of the challenge effect on a snapshot of both players. */
  function Synced(mode: GameMode, p1: Player, p2: Player): (r: Players)
    ensures mode != Challenge ==> r == Players(p1, p2)
  {
    if mode != Challenge then Players(p1, p2)
    else
      var lc1 := p1.state == LevelComplete;
      var lc2 := p2.state == LevelComplete;
      var go1 := p1.state == GameOver;
      var go2 := p2.state == GameOver;
      var revive := (lc1 || lc2) && (go1 || go2);
      Players(
        p1.(canScore := if p1.lives <= 0 && p1.canScore then false else p1.canScore,
            state := if (lc2 && !go1) || (revive && go1) then LevelComplete else p1.state,
            lives := if revive && go1 then REVIVE_LIVES else p1.lives),
        p2.(canScore := if p2.lives <= 0 && p2.canScore then false else p2.canScore,
            state := if (lc1 && !go2) || (revive && go2) then LevelComplete else p2.state,
            lives := if revive && go2 then REVIVE_LIVES else p2.lives))
  }

  /** The rules of the challenge effect: a player without lives stops scoring; once a
      player completes the level the partner completes it too, and a partner who was
      out is revived with exactly one life (without regaining the right to score);
      with nobody at levelComplete only the scoring rights can change. */
  lemma SyncRules(p1: Player, p2: Player)
    ensures var r := Synced(Challenge, p1, p2);
      && (p1.lives <= 0 ==> !r.p1.canScore) && (p2.lives <= 0 ==> !r.p2.canScore)
      && (p1.lives > 0 ==> r.p1.canScore == p1.canScore) && (p2.lives > 0 ==> r.p2.canScore == p2.canScore)
      && (p1.state == LevelComplete ==> r.p2.state == LevelComplete)
      && (p2.state == LevelComplete ==> r.p1.state == LevelComplete)
      && (p1.state == LevelComplete && p2.state == GameOver ==> r.p2.lives == REVIVE_LIVES)
      && (p2.state == LevelComplete && p1.state == GameOver ==> r.p1.lives == REVIVE_LIVES)
      && (p1.state != LevelComplete && p2.state != LevelComplete ==>
            r.p1 == p1.(canScore := r.p1.canScore) && r.p2 == p2.(canScore := r.p2.canScore))
      && r.p1.score == p1.score && r.p2.score == p2.score
  {
  }

  /** The effect settles in one pass: running it again on its own result changes nothing. */
  lemma SyncSettles(mode: GameMode, p1: Player, p2: Player)
    ensures var r := Synced(mode, p1, p2); Synced(mode, r.p1, r.p2) == r
  {
  }

  // ---------------------------------------------------------------- levels

  /** A player's slot when the next level begins (unless out): pipes back to zero, and
      ready, or already complete if the old count meets the new level's pipe count. */
  function Advanced(p: Player, pipeCount: int): (r: Player)
    ensures p.state == GameOver ==> r == p
    ensures p.state != GameOver ==> r.pipesPassed == 0 && (r.state == Ready || r.state == LevelComplete)
    ensures r.score == p.score && r.lives == p.lives && r.starCoins == p.starCoins && r.canScore == p.canScore
  {
    if p.state == GameOver then p
    else p.(state := if LevelDone(p.pipesPassed, pipeCount) then LevelComplete else Ready, pipesPassed := 0)
  }

  /** A player who finished a level with no more pipes than it had starts the next one
      ready: every level needs strictly more pipes than the one before. */
  lemma NextLevelStartsReady(p: Player, level: int)
    requires 1 <= level < MAX_LEVELS
    requires p.state != GameOver && p.pipesPassed <= GetLevelConfig(level).pipeCount
    ensures Advanced(p, GetLevelConfig(level + 1).pipeCount).state == Ready
  {
    TableGetsHarder(level - 1);
  }

  /** Resume-from-level after a game over: ready again with three lives and a fresh
      pipe count, keeping the score. */
  function Resumed(p: Player): (r: Player)
    ensures r.state == Ready && r.lives == RESUME_LIVES && r.pipesPassed == 0
    ensures r.score == p.score && r.starCoins == p.starCoins && r.canScore == p.canScore
  {
    p.(state := Ready, lives := RESUME_LIVES, pipesPassed := 0)
  }

  // ---------------------------------------------------------------- saving

  /** The figures a save keeps of a player. */
  datatype Figures = Figures(score: int, lives: int, starCoins: int, pipesPassed: int, canScore: bool)

  /** What a missing player-2 entry loads as. */
  const DEFAULT_FIGURES: Figures := Figures(0, STARTING_LIVES, 0, 0, true)

  datatype SaveData = SaveData(mode: GameMode, level: int, p1: Figures, p2: Option<Figures>)

  function FiguresOf(p: Player): Figures
  {
    Figures(p.score, p.lives, p.starCoins, p.pipesPassed, p.canScore)
  }

  /** A loaded player: the saved figures, ready to fly. */
  function Restored(f: Figures): Player
  {
    Player(Ready, f.score, f.lives, f.starCoins, f.pipesPassed, f.canScore)
  }

  /** A game can be saved outside the menu while player 1 plays or is paused. */
  predicate CanSave(mode: GameMode, s1: GameState)
  {
    mode != StartMenu && (s1 == Playing || s1 == Paused)
  }

  /** The save of a match; player 2's figures only in a challenge. */
  function Snapshot(mode: GameMode, level: int, p1: Player, p2: Player): SaveData
  {
    SaveData(mode, level, FiguresOf(p1), if mode == Challenge then Some(FiguresOf(p2)) else None)
  }

  /** Loading a save restores the mode, the level and every figure of each saved
      player, with every restored player ready. */
  lemma SaveLoadRoundTrip(mode: GameMode, level: int, p1: Player, p2: Player)
    ensures var d := Snapshot(mode, level, p1, p2);
      && d.mode == mode && d.level == level
      && Restored(d.p1) == p1.(state := Ready)
      && (mode == Challenge ==> d.p2.Some? && Restored(d.p2.value) == p2.(state := Ready))
  {
  }

  predicate TidySave(d: SaveData)
  {
    d.level >= 1 && Tidy(Restored(d.p1)) && (d.p2.Some? ==> Tidy(Restored(d.p2.value)))
  }

  // ---------------------------------------------------------------- the recording

  /** A recording whose flap times are in order and no later than the clock reading `clock`. */
  ghost predicate Timed(r: Recording, clock: int)
  {
    && r.startTime <= clock
    && SceneSim.Ascending(r.flaps)
    && forall k :: 0 <= k < |r.flaps| ==> r.flaps[k] <= clock - r.startTime
  }

  ghost predicate TimedOrNone(r: Option<Recording>, clock: int)
  {
    r.Some? ==> Timed(r.value, clock)
  }

  /** A later clock reading keeps a recording in time. */
  lemma TimedLater(r: Option<Recording>, clock: int, now: int)
    requires TimedOrNone(r, clock) && clock <= now
    ensures TimedOrNone(r, now)
  {
  }

  /** Recording a flap at a reading no earlier than the clock keeps the flaps in order. */
  lemma TimedFlap(r: Recording, clock: int, now: int)
    requires Timed(r, clock) && clock <= now
    ensures Timed(r.(flaps := r.flaps + [now - r.startTime]), now)
  {
    var flaps := r.flaps + [now - r.startTime];
    forall i, j | 0 <= i <= j < |flaps|
      ensures flaps[i] <= flaps[j]
    {
      if j < |r.flaps| {
        assert flaps[i] == r.flaps[i] && flaps[j] == r.flaps[j];
      }
    }
  }

  /** A flap while player 1 (or, in a challenge, player 2) is ready starts the run. */
  predicate StartsRun(mode: GameMode, s1: GameState, s2: GameState)
  {
    s1 == Ready || (mode == Challenge && s2 == Ready)
  }

  // ---------------------------------------------------------------- flap input

  /** The state part of handleFlap. */
  function FlapStates(mode: GameMode, s: States): (r: States)
    ensures StartsRun(mode, s.p1, s.p2) ==> r.p1 == Playing && (mode == Challenge ==> r.p2 == Playing)
    ensures !StartsRun(mode, s.p1, s.p2) ==> r == s
    ensures s.p1 == Playing ==> r.p1 == Playing
  {
    if StartsRun(mode, s.p1, s.p2) then States(Playing, if mode == Challenge then Playing else s.p2)
    else s
  }

  /** Whether a flap key of `slot` reaches handleFlap as the flap refs are written:
      only while that player already plays (player 2 only in a challenge). */
  predicate ForwardedAsWritten(slot: Slot, mode: GameMode, s: States)
  {
    if slot == P1 then s.p1 == Playing else s.p2 == Playing && mode == Challenge
  }

  /** Whether a flap key reaches handleFlap as the match rules intend: every flap of
      an active player does, and only the impulse waits for the player to play. */
  predicate Forwarded(slot: Slot, mode: GameMode)
  {
    slot == P1 || mode == Challenge
  }

  /** The players' states after a run of flap keys, with the refs as written. */
  function AfterFlapsAsWritten(mode: GameMode, s: States, keys: seq<Slot>): States
  {
    if |keys| == 0 then s
    else
      var prev := AfterFlapsAsWritten(mode, s, keys[..|keys| - 1]);
      if ForwardedAsWritten(keys[|keys| - 1], mode, prev) then FlapStates(mode, prev) else prev
  }

  /** The players' states after a run of flap keys, every active flap forwarded. */
  function AfterFlaps(mode: GameMode, s: States, keys: seq<Slot>): States
  {
    if |keys| == 0 then s
    else
      var prev := AfterFlaps(mode, s, keys[..|keys| - 1]);
      if Forwarded(keys[|keys| - 1], mode) then FlapStates(mode, prev) else prev
  }

  /** As written, no flap ever takes a match out of ready: a flap reaches handleFlap
      only from a player who already plays. */
  lemma {:induction false} NoFlapStartsARun(mode: GameMode, s: States, keys: seq<Slot>)
    requires s.p1 != Playing && s.p2 != Playing
    ensures AfterFlapsAsWritten(mode, s, keys) == s
  {
    if |keys| > 0 {
      NoFlapStartsARun(mode, s, keys[..|keys| - 1]);
    }
  }

  /** With every flap forwarded, the first flap of a ready player 1 starts the run and
      it keeps playing through every later flap. */
  lemma {:induction false} FirstFlapStartsTheRun(mode: GameMode, s: States, keys: seq<Slot>)
    requires s.p1 == Ready && |keys| > 0 && Forwarded(keys[0], mode)
    ensures AfterFlaps(mode, s, keys).p1 == Playing
  {
    if |keys| == 1 {
      assert keys[..0] == [];
    } else {
      assert keys[..|keys| - 1][0] == keys[0];
      FirstFlapStartsTheRun(mode, s, keys[..|keys| - 1]);
    }
  }

  // ---------------------------------------------------------------- a frame's events

  /** A player's reaction to one collision the scene reports. */
  function Felt(p: Player, h: SceneSim.Hit): Player
  {
    match h
    case Crash => Hurt(p)
    case TrapHit(_, _) => Hurt(p)
    case CoinCollect(_, _) => Collect(p)
  }

  /** A player after the scene's collisions, in the order they were reported. */
  function FeltAll(p: Player, hits: seq<SceneSim.Hit>): (r: Player)
    ensures Tidy(p) ==> Tidy(r)
    ensures r.canScore == p.canScore && r.pipesPassed == p.pipesPassed
    ensures r.score >= p.score
  {
    if |hits| == 0 then p else Felt(FeltAll(p, hits[..|hits| - 1]), hits[|hits| - 1])
  }

  /** A player who cannot score is not affected by any collision. */
  lemma {:induction false} NoScoreNoEffect(p: Player, hits: seq<SceneSim.Hit>)
    requires !p.canScore
    ensures FeltAll(p, hits) == p
  {
    if |hits| > 0 {
      NoScoreNoEffect(p, hits[..|hits| - 1]);
    }
  }

  /** A frame of pipe crashes costs one life per crash and nothing else. */
  lemma {:induction false} CrashesCostLives(p: Player, hits: seq<SceneSim.Hit>)
    requires SceneSim.CrashesOnly(hits)
    ensures FeltAll(p, hits) == Hurts(p, |hits|)
  {
    if |hits| > 0 {
      CrashesCostLives(p, hits[..|hits| - 1]);
    }
  }

  /** How many segments reported a pass. */
  function Fired(passes: seq<bool>): (n: nat)
    ensures n <= |passes|
  {
    if |passes| == 0 then 0 else Fired(passes[..|passes| - 1]) + (if passes[|passes| - 1] then 1 else 0)
  }

  /** Passing counts every pipe once. */
  lemma {:induction false} PassesCount(p: Player, n: nat, pipeCount: int)
    ensures p.canScore ==> Passes(p, n, pipeCount).pipesPassed == p.pipesPassed + n
    ensures Passes(p, n, pipeCount).canScore == p.canScore
  {
    if n > 0 {
      PassesCount(p, n - 1, pipeCount);
    }
  }

  // ---------------------------------------------------------------- the match

  class Game {
    var mode: GameMode
    var level: int
    var isStarting: bool
    /** The recording the ghost replays: the last run that completed a level. */
    var lastRecording: Option<Recording>
    /** The run being recorded (recordingRef). */
    var recording: Option<Recording>
    /** The save shown on the menu, and the browser's save slot. */
    var saveData: Option<SaveData>
    var storage: Option<SaveData>
    var p1: Player
    var p2: Player
    /** The latest clock reading seen, in milliseconds. */
    ghost var clock: int

    ghost predicate Valid()
      reads this
    {
      && level >= 1
      && Tidy(p1) && Tidy(p2)
      && (storage.Some? ==> TidySave(storage.value))
      && (saveData.Some? ==> TidySave(saveData.value))
      && TimedOrNone(recording, clock) && TimedOrNone(lastRecording, clock)
    }

    /** The app as mounted: the menu, level 1, both slots unstarted, and the save
        slot's content (if any) loaded for display. */
    constructor (stored: Option<SaveData>, now: int)
      requires stored.Some? ==> TidySave(stored.value)
      ensures Valid()
      ensures mode == StartMenu && level == 1 && !isStarting && p1 == UNSTARTED && p2 == UNSTARTED
      ensures lastRecording == None && recording == None && storage == stored && saveData == stored
    {
      mode := StartMenu;
      level := 1;
      isStarting := false;
      lastRecording := None;
      recording := None;
      storage := stored;
      saveData := stored;
      p1 := UNSTARTED;
      p2 := UNSTARTED;
      clock := now;
    }

    /** handleStart: ignored while a start is pending or for the menu "mode"; otherwise
        the save is cleared and the start is scheduled (see CompleteStart). */
    method Start(newMode: GameMode) returns (scheduled: bool)
      requires Valid()
      modifies this
      ensures Valid()
      ensures scheduled <==> !old(isStarting) && newMode != StartMenu
      ensures scheduled ==> isStarting && storage == None && saveData == None
      ensures !scheduled ==> isStarting == old(isStarting) && storage == old(storage) && saveData == old(saveData)
      ensures mode == old(mode) && level == old(level) && p1 == old(p1) && p2 == old(p2)
      ensures recording == old(recording) && lastRecording == old(lastRecording)
    {
      scheduled := false;
      if isStarting || newMode == StartMenu {
        return;
      }
      storage := None;
      saveData := None;
      isStarting := true;
      scheduled := true;
    }

    /** The delayed part of handleStart: the new mode at `startLevel`, player 1 (and
        player 2 in a challenge) reset to a fresh run. */
    method CompleteStart(newMode: GameMode, startLevel: int)
      requires Valid() && startLevel >= 1
      modifies this
      ensures Valid()
      ensures mode == newMode && level == startLevel && !isStarting && p1 == FRESH
      ensures p2 == if newMode == Challenge then FRESH else old(p2)
      ensures storage == old(storage) && saveData == old(saveData)
      ensures recording == old(recording) && lastRecording == old(lastRecording)
    {
      mode := newMode;
      level := startLevel;
      p1 := FRESH;
      if newMode == Challenge {
        p2 := FRESH;
      }
      isStarting := false;
    }

    /** handleRestart: back to the menu with the save cleared. */
    method Restart()
      requires Valid()
      modifies this
      ensures Valid()
      ensures mode == StartMenu && !isStarting && storage == None && saveData == None
      ensures p1 == old(p1).(state := GameState.Start) && p2 == old(p2).(state := GameState.Start)
      ensures level == old(level) && recording == old(recording) && lastRecording == old(lastRecording)
    {
      storage := None;
      saveData := None;
      mode := StartMenu;
      p1 := p1.(state := GameState.Start);
      p2 := p2.(state := GameState.Start);
      isStarting := false;
    }

    /** handleSaveGame: stores a snapshot while a game is in progress or paused. */
    method SaveGame()
      requires Valid()
      modifies this
      ensures Valid()
      ensures CanSave(mode, p1.state) ==>
        storage == Some(Snapshot(mode, level, p1, p2)) && saveData == storage
      ensures !CanSave(mode, p1.state) ==> storage == old(storage) && saveData == old(saveData)
      ensures mode == old(mode) && level == old(level) && p1 == old(p1) && p2 == old(p2)
      ensures isStarting == old(isStarting) && recording == old(recording) && lastRecording == old(lastRecording)
    {
      if mode == StartMenu || (p1.state != Playing && p1.state != Paused) {
        return;
      }
      var data := SaveData(mode, level, FiguresOf(p1), if mode == Challenge then Some(FiguresOf(p2)) else None);
      storage := Some(data);
      saveData := Some(data);
    }

    /** handleLoadGame: restores the stored match, every restored player ready. */
    method LoadGame()
      requires Valid()
      modifies this
      ensures Valid()
      ensures old(storage).None? ==> mode == old(mode) && level == old(level) && p1 == old(p1) && p2 == old(p2)
      ensures old(storage).Some? ==>
        var d := old(storage).value;
        && mode == d.mode && level == d.level && p1 == Restored(d.p1)
        && p2 == (if d.mode == Challenge then Restored(if d.p2.Some? then d.p2.value else DEFAULT_FIGURES) else old(p2))
      ensures storage == old(storage) && saveData == old(saveData) && isStarting == old(isStarting)
      ensures recording == old(recording) && lastRecording == old(lastRecording)
    {
      if storage.Some? {
        var data := storage.value;
        mode := data.mode;
        level := data.level;
        p1 := Restored(data.p1);
        if data.mode == Challenge {
          p2 := Restored(if data.p2.Some? then data.p2.value else DEFAULT_FIGURES);
        }
      }
    }

    /** handleQuitToMenu: saves (when allowed) and returns to the menu. */
    method QuitToMenu()
      requires Valid()
      modifies this
      ensures Valid()
      ensures CanSave(old(mode), old(p1.state)) ==>
        storage == Some(Snapshot(old(mode), old(level), old(p1), old(p2))) && saveData == storage
      ensures !CanSave(old(mode), old(p1.state)) ==> storage == old(storage) && saveData == old(saveData)
      ensures mode == StartMenu && p1 == old(p1).(state := GameState.Start) && p2 == old(p2).(state := GameState.Start)
      ensures level == old(level) && isStarting == old(isStarting)
      ensures recording == old(recording) && lastRecording == old(lastRecording)
    {
      SaveGame();
      mode := StartMenu;
      p1 := p1.(state := GameState.Start);
      p2 := p2.(state := GameState.Start);
    }

    /** handlePause. */
    method Pause()
      requires Valid()
      modifies this
      ensures Valid()
      ensures mode == Single ==> p1 == old(p1).(state := SinglePause(old(p1.state))) && p2 == old(p2)
      ensures mode == Challenge ==>
        var r := ChallengePause(old(p1.state), old(p2.state));
        p1 == old(p1).(state := r.p1) && p2 == old(p2).(state := r.p2)
      ensures mode == StartMenu ==> p1 == old(p1) && p2 == old(p2)
      ensures mode == old(mode) && level == old(level) && storage == old(storage) && saveData == old(saveData)
      ensures isStarting == old(isStarting) && recording == old(recording) && lastRecording == old(lastRecording)
    {
      if mode == Single {
        p1 := p1.(state := if p1.state == Playing then Paused else Playing);
      } else if mode == Challenge {
        var anyPlaying := p1.state == Playing || p2.state == Playing;
        if anyPlaying {
          if p1.state == Playing {
            p1 := p1.(state := Paused);
          }
          if p2.state == Playing {
            p2 := p2.(state := Paused);
          }
        } else {
          if p1.state == Paused {
            p1 := p1.(state := Playing);
          }
          if p2.state == Paused {
            p2 := p2.(state := Playing);
          }
        }
      }
    }

    /** handleResumeFromLevel. */
    method ResumeFromLevel()
      requires Valid()
      modifies this
      ensures Valid()
      ensures p1 == Resumed(old(p1)) && p2 == old(p2)
      ensures mode == old(mode) && level == old(level) && storage == old(storage) && saveData == old(saveData)
      ensures isStarting == old(isStarting) && recording == old(recording) && lastRecording == old(lastRecording)
    {
      p1 := p1.(state := Ready, lives := RESUME_LIVES, pipesPassed := 0);
    }

    /** handleNextLevel: past the last level the game is won (player 2 too in a
        challenge, even a player who was out) and the save is cleared; otherwise the
        level goes up and every player still in starts it. */
    method NextLevel()
      requires Valid()
      modifies this
      ensures Valid()
      ensures old(level) + 1 > MAX_LEVELS ==>
        && level == old(level) && storage == None && saveData == None
        && p1 == old(p1).(state := Victory)
        && p2 == (if mode == Challenge then old(p2).(state := Victory) else old(p2))
      ensures old(level) + 1 <= MAX_LEVELS ==>
        && level == old(level) + 1 && storage == old(storage) && saveData == old(saveData)
        && p1 == Advanced(old(p1), GetLevelConfig(level).pipeCount)
        && p2 == (if mode == Challenge then Advanced(old(p2), GetLevelConfig(level).pipeCount) else old(p2))
      ensures mode == old(mode) && isStarting == old(isStarting)
      ensures recording == old(recording) && lastRecording == old(lastRecording)
    {
      var nextLevel := level + 1;
      if nextLevel > MAX_LEVELS {
        p1 := p1.(state := Victory);
        if mode == Challenge {
          p2 := p2.(state := Victory);
        }
        storage := None;
        saveData := None;
      } else {
        level := nextLevel;
        var pipeCount := GetLevelConfig(nextLevel).pipeCount;
        p1 := Advanced(p1, pipeCount);
        if mode == Challenge {
          p2 := Advanced(p2, pipeCount);
        }
      }
    }

    /** handleFlap at clock reading `now`: a flap while ready starts the run and a new
        recording; a flap while player 1 was already playing is recorded. */
    method Flap(now: int)
      requires Valid() && now >= clock
      modifies this
      ensures Valid()
      ensures StartsRun(mode, old(p1.state), old(p2.state)) ==>
        && p1 == old(p1).(state := Playing)
        && p2 == (if mode == Challenge then old(p2).(state := Playing) else old(p2))
      ensures !StartsRun(mode, old(p1.state), old(p2.state)) ==> p1 == old(p1) && p2 == old(p2)
      ensures var started := if StartsRun(mode, old(p1.state), old(p2.state)) then Some(Recording(level, now, []))
                             else old(recording);
        recording == if started.Some? && old(p1.state) == Playing
                     then Some(started.value.(flaps := started.value.flaps + [now - started.value.startTime]))
                     else started
      ensures mode == old(mode) && level == old(level) && lastRecording == old(lastRecording)
      ensures storage == old(storage) && saveData == old(saveData) && isStarting == old(isStarting)
    {
      var started := StartsRun(mode, p1.state, p2.state);
      var rec := if started then Some(Recording(level, now, [])) else recording;
      TimedLater(recording, clock, now);
      TimedLater(lastRecording, clock, now);
      if rec.Some? && p1.state == Playing {
        TimedFlap(rec.value, now, now);
        rec := Some(rec.value.(flaps := rec.value.flaps + [now - rec.value.startTime]));
      }
      clock := now;
      recording := rec;
      p1 := if started then p1.(state := Playing) else p1;
      p2 := if started && mode == Challenge then p2.(state := Playing) else p2;
    }

    /** handleCrash1/2 and handleTrapHit1/2. */
    method Hit(slot: Slot)
      requires Valid()
      modifies this
      ensures Valid()
      ensures p1 == (if slot == P1 then Hurt(old(p1)) else old(p1))
      ensures p2 == (if slot == P2 then Hurt(old(p2)) else old(p2))
      ensures mode == old(mode) && level == old(level) && recording == old(recording) && lastRecording == old(lastRecording)
      ensures storage == old(storage) && saveData == old(saveData) && isStarting == old(isStarting)
    {
      if slot == P1 {
        p1 := Hurt(p1);
      } else {
        p2 := Hurt(p2);
      }
    }

    /** handleCoinCollect1/2. */
    method CoinCollect(slot: Slot)
      requires Valid()
      modifies this
      ensures Valid()
      ensures p1 == (if slot == P1 then Collect(old(p1)) else old(p1))
      ensures p2 == (if slot == P2 then Collect(old(p2)) else old(p2))
      ensures mode == old(mode) && level == old(level) && recording == old(recording) && lastRecording == old(lastRecording)
      ensures storage == old(storage) && saveData == old(saveData) && isStarting == old(isStarting)
    {
      if slot == P1 {
        p1 := Collect(p1);
      } else {
        p2 := Collect(p2);
      }
    }

    /** handlePipePass1/2: on completing the level the current recording becomes the
        one the ghost replays. */
    method PipePass(slot: Slot)
      requires Valid()
      modifies this
      ensures Valid()
      ensures var pipeCount := GetLevelConfig(level).pipeCount;
        var before := if slot == P1 then old(p1) else old(p2);
        var after := PassPipe(before, pipeCount);
        && p1 == (if slot == P1 then after else old(p1))
        && p2 == (if slot == P2 then after else old(p2))
        && lastRecording == (if before.canScore && LevelDone(after.pipesPassed, pipeCount) then recording
                             else old(lastRecording))
      ensures mode == old(mode) && level == old(level) && recording == old(recording)
      ensures storage == old(storage) && saveData == old(saveData) && isStarting == old(isStarting)
    {
      PassWith(slot, GetLevelConfig(level).pipeCount);
    }

    /** The pipe-pass handler for a level of `pipeCount` pipes. */
    method PassWith(slot: Slot, pipeCount: int)
      requires Valid()
      modifies this
      ensures Valid()
      ensures var before := if slot == P1 then old(p1) else old(p2);
        var after := PassPipe(before, pipeCount);
        && p1 == (if slot == P1 then after else old(p1))
        && p2 == (if slot == P2 then after else old(p2))
        && lastRecording == (if before.canScore && LevelDone(after.pipesPassed, pipeCount) then recording
                             else old(lastRecording))
      ensures mode == old(mode) && level == old(level) && recording == old(recording)
      ensures storage == old(storage) && saveData == old(saveData) && isStarting == old(isStarting)
    {
      var before := if slot == P1 then p1 else p2;
      if !before.canScore {
        return;
      }
      var after := PassPipe(before, pipeCount);
      if slot == P1 {
        p1 := after;
      } else {
        p2 := after;
      }
      if LevelDone(after.pipesPassed, pipeCount) {
        lastRecording := recording;
      }
    }

    /** One collision event routed to its handler. */
    method Feel(slot: Slot, h: SceneSim.Hit)
      requires Valid()
      modifies this
      ensures Valid()
      ensures p1 == (if slot == P1 then Felt(old(p1), h) else old(p1))
      ensures p2 == (if slot == P2 then Felt(old(p2), h) else old(p2))
      ensures mode == old(mode) && level == old(level) && recording == old(recording) && lastRecording == old(lastRecording)
      ensures storage == old(storage) && saveData == old(saveData) && isStarting == old(isStarting)
    {
      match h
      case Crash => Hit(slot);
      case TrapHit(_, _) => Hit(slot);
      case CoinCollect(_, _) => CoinCollect(slot);
    }

    /** A player's collisions of one frame, handled in the order they were reported. */
    method FeelAll(slot: Slot, hits: seq<SceneSim.Hit>)
      requires Valid()
      modifies this
      ensures Valid()
      ensures p1 == (if slot == P1 then FeltAll(old(p1), hits) else old(p1))
      ensures p2 == (if slot == P2 then FeltAll(old(p2), hits) else old(p2))
      ensures mode == old(mode) && level == old(level) && recording == old(recording) && lastRecording == old(lastRecording)
      ensures storage == old(storage) && saveData == old(saveData) && isStarting == old(isStarting)
    {
      for k := 0 to |hits|
        invariant Valid()
        invariant p1 == (if slot == P1 then FeltAll(old(p1), hits[..k]) else old(p1))
        invariant p2 == (if slot == P2 then FeltAll(old(p2), hits[..k]) else old(p2))
        invariant mode == old(mode) && level == old(level) && recording == old(recording) && lastRecording == old(lastRecording)
        invariant storage == old(storage) && saveData == old(saveData) && isStarting == old(isStarting)
      {
        assert hits[..k + 1][..k] == hits[..k];
        Feel(slot, hits[k]);
      }
      assert hits[..|hits|] == hits;
    }

    /** The frame's pipe passes, every one reported to player 1's handler (the
        player-2 handler is never wired to the pipes). */
    method PassAll(passes: seq<bool>)
      requires Valid()
      modifies this
      ensures Valid()
      ensures var pipeCount := GetLevelConfig(level).pipeCount;
        var n := Fired(passes);
        && p1 == Passes(old(p1), n, pipeCount)
        && lastRecording == (if old(p1).canScore && n > 0 && LevelDone(old(p1).pipesPassed + n, pipeCount)
                             then recording else old(lastRecording))
      ensures p2 == old(p2) && mode == old(mode) && level == old(level) && recording == old(recording)
      ensures storage == old(storage) && saveData == old(saveData) && isStarting == old(isStarting)
    {
      PassAllWith(passes, GetLevelConfig(level).pipeCount);
    }

    /** The pipe passes of a frame on a level of `pipeCount` pipes. */
    method PassAllWith(passes: seq<bool>, pipeCount: int)
      requires Valid()
      modifies this
      ensures Valid()
      ensures var n := Fired(passes);
        && p1 == Passes(old(p1), n, pipeCount)
        && lastRecording == (if old(p1).canScore && n > 0 && LevelDone(old(p1).pipesPassed + n, pipeCount)
                             then recording else old(lastRecording))
      ensures p2 == old(p2) && mode == old(mode) && level == old(level) && recording == old(recording)
      ensures storage == old(storage) && saveData == old(saveData) && isStarting == old(isStarting)
    {
      for k := 0 to |passes|
        invariant Valid() && level == old(level)
        invariant p1 == Passes(old(p1), Fired(passes[..k]), pipeCount)
        invariant lastRecording == (if old(p1).canScore && Fired(passes[..k]) > 0
                                       && LevelDone(old(p1).pipesPassed + Fired(passes[..k]), pipeCount)
                                    then recording else old(lastRecording))
        invariant p2 == old(p2) && mode == old(mode) && recording == old(recording)
        invariant storage == old(storage) && saveData == old(saveData) && isStarting == old(isStarting)
      {
        assert passes[..k + 1][..k] == passes[..k];
        if passes[k] {
          PassesCount(old(p1), Fired(passes[..k]), pipeCount);
          PassWith(P1, pipeCount);
        }
      }
      assert passes[..|passes|] == passes;
    }

    /** The events of one scene frame: player 1's collisions, player 2's, then the
        pipe passes. */
    method ApplyFrame(hits1: seq<SceneSim.Hit>, hits2: seq<SceneSim.Hit>, passes: seq<bool>)
      requires Valid()
      modifies this
      ensures Valid()
      ensures var felt := FeltAll(old(p1), hits1);
        var pipeCount := GetLevelConfig(level).pipeCount;
        var n := Fired(passes);
        && p1 == Passes(felt, n, pipeCount)
        && p2 == FeltAll(old(p2), hits2)
        && lastRecording == (if felt.canScore && n > 0 && LevelDone(felt.pipesPassed + n, pipeCount)
                             then recording else old(lastRecording))
      ensures mode == old(mode) && level == old(level) && recording == old(recording)
      ensures storage == old(storage) && saveData == old(saveData) && isStarting == old(isStarting)
    {
      FeelAll(P1, hits1);
      FeelAll(P2, hits2);
      PassAll(passes);
    }

    /** The challenge-mode effect, run whenever the players' figures or states change. */
    method ChallengeSync()
      requires Valid()
      modifies this
      ensures Valid()
      ensures Players(p1, p2) == Synced(mode, old(p1), old(p2))
      ensures mode == old(mode) && level == old(level) && recording == old(recording) && lastRecording == old(lastRecording)
      ensures storage == old(storage) && saveData == old(saveData) && isStarting == old(isStarting)
    {
      var r := Synced(mode, p1, p2);
      p1 := r.p1;
      p2 := r.p2;
    }
  }
}
