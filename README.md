# UFO Flap: a verified model of the game core

UFO Flap is a browser game. One or two UFOs fly through an endless tunnel of
pipe pairs. A flap gives a UFO upward speed and gravity pulls it down. Passing a
pipe scores, star coins score and buy lives, and traps and pipes cost lives. A
level ends after its pipe count. In a challenge, two players share the tunnel,
and a ghost UFO replays the flaps recorded on the last completed level.

This project models the game's core in Dafny and proves what it promises:

- `Levels` (levelConfig.ts) holds the ten-entry level table and the clamping
  lookup. It proves that every entry is sane and that levels only get harder.
- `Pipes` (components/PipeSystem.tsx) holds the pool of five pipe segments,
  with the class `PipeSystem` whose `segments` field the methods rewrite. It
  covers how a segment is regenerated (padding past the level's end, the gap,
  single coins and coin towers, traps) and the per-frame scroll that recycles
  segments and reports passes.
- `Particles` (components/ParticleSystem.tsx) holds the fixed pool of 100
  particles, as an `array` inside the class `ParticlePool`. It covers the
  trigger that claims free particles in index order and the per-frame ageing.
- `SceneSim` (components/Scene.tsx) holds the UFO physics, the collision check,
  the bursts of particles for pickups and the ghost replay. The class `Scene`
  holds the velocity and ghost references and the per-frame update.
- `App` (App.tsx) holds the match state machine. The class `Game` has one method
  per handler: start, restart, save and load, quit, pause, resume, next level,
  flap, crash, trap, coin, pipe pass and the challenge synchronisation. Pure
  functions give the per-player updates, and lemmas state their effect over
  whole runs.
- `Types` (types.ts) holds the shared vocabulary.

Outside effects are parameters:
- Each `Math.random()` draw is a value the caller passes (`Draws`, `Roll`).
- `Date.now()` is an `int` argument.
- The three.js box overlap test is a function parameter.
- `localStorage` is a field of `Game`.
- The 500 ms `setTimeout` of handleStart splits `Start` into two steps, `Start`
  and `CompleteStart`.

Each React handler is one atomic transition of the state it reads.

## Model

| member | source | states |
|---|---|---|
| Levels.GetLevelConfig | levelConfig.ts:36-38 | levels 1..10 return their own table entry; any level past the table returns the last entry |
| Levels.MaxLevelsIsTen | levelConfig.ts:34 | MAX_LEVELS is the table length, ten |
| Levels.TableSane | levelConfig.ts:11-32 | every table entry has positive speed, spacing and pipe count, and trap and coin chances in [0, 1] |
| Levels.TableGetsHarder | levelConfig.ts:11-32 | each level is strictly faster and longer than the one before, with a narrower gap and closer spacing, no lower trap chance and no higher coin chance |
| Levels.HarderWithLevel | levelConfig.ts:11-38 | for any two levels a <= b, level b is at least as hard as level a in every one of those five figures |
| Levels.ClampsPastLastLevel | levelConfig.ts:36-38 | every level at or past MAX_LEVELS gets the last level's configuration |
| Levels.LevelElevenIsLevelTen | levelConfig.ts:36-38 | level 11 plays as level 10: speed 5.0 and 30 pipes |
| Levels.FirstLevel | levelConfig.ts:11-12 | level 1 runs at speed 3.2 and ends after 10 pipes |
| Levels.ConfigSane | levelConfig.ts:36-38 | every level a caller can ask for gets a sane configuration with at least 10 pipes |
| Pipes.Triple.With | components/PipeSystem.tsx:127-144 | replacing one of a segment's three item slots sets that slot and leaves the other two as they were |
| Pipes.GapCenter | components/PipeSystem.tsx:98 | the gap centre lies in [-4, 4) |
| Pipes.Progress | components/PipeSystem.tsx:114 | progress is never negative, is at most 1 up to the level's last pipe, and is at least 1 from then on |
| Pipes.TowerChance | components/PipeSystem.tsx:115-121 | the tower chance is 0 up to 20% progress, positive after it, reaches 0.5 at the level's end and never exceeds 0.5 |
| Pipes.TowerChanceMonotone | components/PipeSystem.tsx:117-121 | the tower chance never falls as progress grows |
| Pipes.ItemCount | components/PipeSystem.tsx:102-125 | a segment carries 0, 1 or 3 items; it carries none exactly when the coin draw fails; a tower appears only past 20% progress |
| Pipes.HideItems | components/PipeSystem.tsx:90 | every item becomes invisible and is otherwise unchanged |
| Pipes.Regenerated | components/PipeSystem.tsx:83-145 | the segment moves to the requested depth and counts as passed exactly when its index is past the level's pipe count; each pipe is visible exactly when the index is within the level |
| Pipes.RegeneratedPadding | components/PipeSystem.tsx:87-93 | a segment past the level's end is passed, with both pipes and all items hidden |
| Pipes.RegeneratedObstacle | components/PipeSystem.tsx:95-144 | a live segment is unpassed with both pipes visible at its depth; the pipes are PIPE_HEIGHT plus the gap apart, centred on the gap; exactly the first ItemCount item slots are visible, at the segment's depth |
| Pipes.RegeneratedItems | components/PipeSystem.tsx:127-144 | a single coin sits at the gap centre and is never a trap; a tower spaces its items 1.8 apart around the centre, the middle is never a trap, and each outer item is a trap exactly when its draw is below the trap chance |
| Pipes.NoEarlyTowers | components/PipeSystem.tsx:114-124 | no coin tower appears in the first 20% of a level |
| Pipes.ResetPipeSegment | components/PipeSystem.tsx:83-145 | the imperative reset produces exactly the regenerated segment |
| Pipes.Translated | components/PipeSystem.tsx:190-193 | the pipes and items move to the segment's depth, and nothing else changes |
| Pipes.MoveSegment | components/PipeSystem.tsx:184-189 | a segment is recycled exactly when it moves past z = 15; a recycled segment jumps back by one full cycle, any other advances by the move |
| Pipes.PassRule | components/PipeSystem.tsx:184-205 | a pass fires only for a segment that is now passed and in front of the UFOs; every segment in front is passed; a segment that is not recycled fires exactly on its first crossing of z = 0; a recycled segment past the level's end never fires and is hidden; a segment that was hidden only if passed stays so, and fires only with both pipes visible |
| Pipes.MoveOne | components/PipeSystem.tsx:184-205 | the loop body computes exactly the moved segment, whether it was recycled and whether it fired |
| Pipes.Recycles | components/PipeSystem.tsx:187-189 | no more segments recycle than there are segments |
| Pipes.Sweep | components/PipeSystem.tsx:184-206 | a sweep keeps the segment count, reports one pass flag per segment, and advances the generation counter by the number of recycled segments |
| Pipes.SweepAt | components/PipeSystem.tsx:184-206 | segment k of a sweep is moved with the generation counter as it stands after the recycles of segments 0..k-1 |
| Pipes.PassFiresOnFlip | components/PipeSystem.tsx:187-205 | in a sweep, a pass fires only for a segment now passed and in front; a segment that was already passed fires again only after being recycled, and never when the counter is past the level's end; in a settled pool a pass fires only for a segment with both pipes visible, and a hidden segment that stays in the pool never fires |
| Pipes.SweepSettles | components/PipeSystem.tsx:184-205 | a sweep keeps the pool settled: every segment with a hidden pipe is already passed, so it can never score |
| Pipes.PipeSystem.constructor | components/PipeSystem.tsx:62-64 | a new pool is empty, with the generation counter at 0 and the first level's colour |
| Pipes.PipeSystem.InitializeAndReset | components/PipeSystem.tsx:147-170 | after a reset there are five segments, each regenerated at depth -i * spacing - 15 with pipe index i; the colour is the level's; the counter is 5; every segment is live and unpassed with both pipes visible |
| Pipes.PipeSystem.AllocateSegments | components/PipeSystem.tsx:151-163 | an empty pool gains five fresh segments |
| Pipes.PipeSystem.LayOut | components/PipeSystem.tsx:165-168 | segment i is regenerated at its start depth with index i, with both pipes visible, and the counter becomes 5 |
| Pipes.PipeSystem.OnGameState | components/PipeSystem.tsx:173-177 | in the ready and start states the pool is laid out afresh for the level, five segments at their start depths with the level's colour and the counter at 5; in every other state it is left untouched |
| Pipes.PipeSystem.MovePipes | components/PipeSystem.tsx:179-207 | the new segments, the counter and the pass flags are exactly the level's scroll of the old pool by speed * delta |
| Pipes.PipeSystem.Scroll | components/PipeSystem.tsx:181-206 | the loop over the pool computes the sweep with move speed * delta and cycle 5 * spacing |
| Particles.Launch | components/ParticleSystem.tsx:46-48 | each launch velocity component lies in [-2.5, 2.5) |
| Particles.Spawn | components/ParticleSystem.tsx:44-52 | a spawned particle sits at the burst position with the burst colour; its life is in [0.5, 1) and is also its initial life; every velocity component lies in [-2.5, 2.5) |
| Particles.FreeBefore | components/ParticleSystem.tsx:41-43 | no more than i of the first i particles are free |
| Particles.Triggered | components/ParticleSystem.tsx:39-56 | the pool keeps its size, and each particle is as TriggeredAt describes |
| Particles.ClaimsMinOfCountAndFree | components/ParticleSystem.tsx:40-55 | a trigger claims min(count, free particles) particles |
| Particles.FreeBeforeGrows | components/ParticleSystem.tsx:41-43 | the free count grows with the prefix, and strictly at each free particle |
| Particles.ClaimedInOrder | components/ParticleSystem.tsx:41-53 | if a free particle is claimed, every free particle before it is claimed too |
| Particles.TriggerSparesLive | components/ParticleSystem.tsx:43 | a trigger never touches a live particle |
| Particles.TriggerActivates | components/ParticleSystem.tsx:43-53 | a free particle becomes live exactly when it is claimed, and is then spawned at the burst with a life in [0.5, 1) |
| Particles.Aged | components/ParticleSystem.tsx:65-68 | a live particle loses delta of life and 2 * delta of vertical speed, keeping its initial life and colour; a dead particle is unchanged |
| Particles.Shown | components/ParticleSystem.tsx:70-82 | the shown scale is never negative; a dead particle is parked off-screen at scale 1; a live particle's scale is at most 1 and reaches 0 when its remaining life runs out in this frame |
| Particles.ParticlePool.constructor | components/ParticleSystem.tsx:24-36 | a new pool holds 100 dead particles parked at y = -100 |
| Particles.ParticlePool.Trigger | components/ParticleSystem.tsx:39-56 | the array after the claiming loop is exactly Triggered of the old array |
| Particles.ParticlePool.Tick | components/ParticleSystem.tsx:59-88 | every particle is aged, and one instance per particle is shown |
| SceneSim.ClampDelta | components/Scene.tsx:180 | the frame step is at most 0.05; it equals delta whenever delta is within that bound |
| SceneSim.Tilt | components/Scene.tsx:186 | the tilt lies in [-pi/2, pi/6], and equals 0.05 * velocity inside that range |
| SceneSim.Fallen | components/Scene.tsx:183-186 | a falling step keeps the tilt in range |
| SceneSim.FlapLifts | components/Scene.tsx:184-186 | right after a flap, a frame raises the UFO, keeps its speed upward and tilts its nose up |
| SceneSim.FallsWithoutFlap | components/Scene.tsx:184-186 | without upward speed, a frame lowers the UFO, speeds its fall and tilts its nose down |
| SceneSim.PipeHits | components/Scene.tsx:149-156 | checking n pipes reports at most n crashes |
| SceneSim.ItemHits | components/Scene.tsx:159-174 | checking n items reports at most n pickups |
| SceneSim.CheckedSegment | components/Scene.tsx:147-175 | one segment reports at most five events |
| SceneSim.Collide | components/Scene.tsx:147-175 | the check keeps the segment count, with at most five events per segment |
| SceneSim.Collision | components/Scene.tsx:141-175 | a UFO out of bounds crashes once and changes nothing else; a UFO in bounds is checked against every segment |
| SceneSim.CollideAt | components/Scene.tsx:147-175 | segment k after the check is that segment checked on its own |
| SceneSim.CollideOnlyHidesTouched | components/Scene.tsx:159-164 | the check hides exactly the touched items and leaves pipes, pass flags and depths alone |
| SceneSim.ItemHitsNameTouched | components/Scene.tsx:159-171 | every reported pickup belongs to an item the UFO touches |
| SceneSim.NoHitsFromHidden | components/Scene.tsx:160 | hidden items are never picked up |
| SceneSim.PipeHitsAreCrashes | components/Scene.tsx:149-156 | pipe contact only ever reports crashes |
| SceneSim.PipeCrashIffOverlap | components/Scene.tsx:149-156 | a crash is reported exactly when some visible pipe of the segment overlaps the UFO |
| SceneSim.BothPipesCrash | components/Scene.tsx:149-156 | when both pipes are visible and overlap the UFO, each reports its own crash, since the early return leaves only the current pipe's callback |
| SceneSim.TouchedItemHits | components/Scene.tsx:159-171 | every visible item the UFO touches reports its own pickup, a trap hit or a coin |
| SceneSim.CollisionSettles | components/Scene.tsx:159-164 | the collision check keeps the pool settled, since it hides items only and never a pipe |
| SceneSim.CollideIdempotent | components/Scene.tsx:159-174 | checking again at the same pose changes no segment and reports crashes only, since every touched item is already hidden |
| SceneSim.ItemHitsAfterPick | components/Scene.tsx:164 | items picked up at a pose yield no further pickups at that pose |
| SceneSim.NoPickupFromLanes | components/Scene.tsx:159-174 | a UFO in either player lane (x = -2.5 or 2.5) never picks up an item, because items sit at x = 0 |
| SceneSim.OutOfReach | components/Scene.tsx:161-163 | from a player lane, every item is further away than its pickup radius |
| SceneSim.NoTouchNoHits | components/Scene.tsx:159-174 | with no item in reach, no pickup is reported |
| SceneSim.CheckSegment | components/Scene.tsx:147-175 | the imperative check of one segment yields the specified segment and events |
| SceneSim.Burst | components/Scene.tsx:166-170 | a burst keeps the pool size |
| SceneSim.BurstAt | components/Scene.tsx:166-170 | a particle changes exactly when the burst claims it; a crash claims nothing, a trap claims up to 20 and a coin up to 15; each claimed particle sits at the item's position, red for a trap and gold for a coin, with a life in [0.5, 1) |
| SceneSim.RenewedAreClaimed | components/Scene.tsx:166-170 | the particles a burst changes in a prefix are the ones it claims there |
| SceneSim.BurstRenewsMinOfSizeAndFree | components/Scene.tsx:166-170 | a burst changes exactly min(burst size, free particles) particles |
| SceneSim.Bursts | components/Scene.tsx:166-170 | a run of bursts keeps the pool size |
| SceneSim.BurstsSpareLive | components/Scene.tsx:166-170 | bursts never disturb a live particle |
| SceneSim.CrashesSpawnNothing | components/Scene.tsx:141-156 | crashes never trigger particles |
| SceneSim.Replayed | components/Scene.tsx:207-214 | replay steps past exactly the recorded flaps earlier than the elapsed time, stopping at the first later one |
| SceneSim.CountAllBefore | components/Scene.tsx:207-210 | if every flap is earlier than t, all of them count |
| SceneSim.ReplayCatchesUp | components/Scene.tsx:204-214 | from the start of an ascending recording, the replay stops after exactly the flaps earlier than the elapsed time |
| SceneSim.StopIsCount | components/Scene.tsx:207-210 | in an ascending recording, the replay's stopping point is the number of flaps earlier than t |
| SceneSim.ClampY | components/Scene.tsx:219-221 | the ghost stays within [-10, 10] and is moved only when outside it |
| SceneSim.LiftedIsProduct | components/Scene.tsx:212-213 | n replayed flaps lift the ghost by n times the per-flap lift |
| SceneSim.AdvanceGhost | components/Scene.tsx:204-222 | the while loop stops at the replay point, and the ghost height is the lifted, fallen and clamped height |
| SceneSim.Turn | components/Scene.tsx:183-196 | a UFO that does not fly checks nothing and reports nothing |
| SceneSim.Scene.constructor | components/Scene.tsx:71-80 | both UFOs start at rest, the pool is empty and the ghost is at its start |
| SceneSim.Scene.FlapP1 | components/Scene.tsx:120-125 | player 1's flap sets FLAP_POWER and forwards to handleFlap exactly when player 1 is playing |
| SceneSim.Scene.FlapP2 | components/Scene.tsx:127-132 | player 2's flap acts and forwards exactly when player 2 is playing in a challenge |
| SceneSim.Scene.OnStatesChanged | components/Scene.tsx:91-106 | each UFO in the ready or start state is reset; the ghost is hidden; when player 1 resets, the pipes are rebuilt for the level and the ghost clock restarts |
| SceneSim.Scene.StartGhost | components/Scene.tsx:109-117 | the ghost replay starts at `now` exactly when a challenge has a recording and player 1 plays |
| SceneSim.Scene.CheckCollisions | components/Scene.tsx:135-176 | the pool after the check and the reported events are the specified collision outcome |
| SceneSim.Scene.EmitBursts | components/Scene.tsx:166-170 | the particle array becomes the bursts of the reported events |
| SceneSim.Scene.Fly | components/Scene.tsx:183-188 | a flying UFO falls one step, is checked at its new pose, and its pickups burst |
| SceneSim.Scene.StepGhost | components/Scene.tsx:204-222 | a started ghost advances to the replay point and to its clamped height; otherwise it stays |
| SceneSim.Scene.Frame | components/Scene.tsx:178-224 | one frame with a clamped step: the flying UFOs fall and are checked in order (P1, then P2); the pipes scroll while either player plays; the ghost replays; every event is returned |
| SceneSim.Scene.ScrollAndReplay | components/Scene.tsx:198-222 | pipes scroll exactly while a player plays, and the ghost replays; the UFOs and particles are untouched |
| SceneSim.Scene.FlyPlayers | components/Scene.tsx:182-196 | each UFO whose state flies falls and is checked, player 1 before player 2 |
| App.Hurt | App.tsx:248-262 | a crash or trap costs a scoring player one life, and ends the run when the lives run out; a player who cannot score is unaffected |
| App.SixHitsEndARun | App.tsx:248-262 | a fresh run survives five hits and is over at the sixth |
| App.Collect | App.tsx:291-309 | a coin gives 25 points and, at the 25th star coin, one extra life; it keeps the player tidy |
| App.CoinsAccumulate | App.tsx:296-307 | n coins under the threshold add 25n points and n star coins |
| App.TwentyFiveStarsBuyALife | App.tsx:300-306 | 25 coins from zero buy exactly one life and reset the star count |
| App.PassPipe | App.tsx:267-286 | a pass gives 100 points and one pipe; the level completes exactly when the count reaches the level's pipe count |
| App.LevelEndsAtPipeCount | App.tsx:272-285 | n passes from zero give 100n points and complete the level exactly when n reaches the pipe count |
| App.FirstLevelTakesTenPipes | App.tsx:276-283 | level 1 completes exactly at the tenth pipe |
| App.SinglePauseToggles | App.tsx:186-187 | the single-player pause toggles between playing and paused, and twice is the identity |
| App.ChallengePause | App.tsx:188-199 | if anyone plays, every playing player is paused and nobody plays afterwards; if nobody plays, every paused player resumes playing; a state changes only from playing to paused or from paused to playing |
| App.VersusPauseSymmetry | App.tsx:188-199 | one player playing and one paused both end up paused, and both paused both resume |
| App.ChallengePauseRoundTrip | App.tsx:188-199 | pausing and resuming a challenge restores both states |
| App.Synced | App.tsx:334-335 | the challenge rules leave single and menu games alone |
| App.SyncRules | App.tsx:336-362 | players out of lives lose scoring; one player's level completion carries the other along and revives a game-over partner with one life; otherwise only canScore changes |
| App.SyncSettles | App.tsx:334-364 | applying the challenge rules twice changes nothing more |
| App.Advanced | App.tsx:223-232 | a player not yet game over starts the next level ready, or level-complete, with the pipe count reset |
| App.NextLevelStartsReady | App.tsx:220-226 | since each level is at least as long as the one before, a player moving up always starts the next level ready |
| App.Resumed | App.tsx:202-208 | resuming gives three lives and the ready state, keeps the score and resets the pipe count |
| App.SaveLoadRoundTrip | App.tsx:112-165 | loading a snapshot restores the mode, the level and each player's figures, in the ready state |
| App.TimedLater | App.tsx:236-244 | a recording whose flap times are ascending and no later than the clock stays so as the clock moves on |
| App.TimedFlap | App.tsx:242-244 | appending the flap time `now - startTime` keeps the recording ascending and no later than the clock |
| App.FlapStates | App.tsx:236-241 | a flap from ready starts the run for every active player; otherwise the states are kept |
| App.NoFlapStartsARun | components/Scene.tsx:120-132 | as written, no sequence of flap keys moves a match out of ready, because nobody is playing yet |
| App.FirstFlapStartsTheRun | App.tsx:236-241 | once every active flap is forwarded, the first flap of a ready player 1 starts the run, which keeps playing through every later flap |
| App.FeltAll | App.tsx:248-331 | a frame's events keep a player tidy, never lower the score and never change canScore or the pipe count |
| App.NoScoreNoEffect | App.tsx:248-331 | events do nothing to a player who cannot score |
| App.CrashesCostLives | App.tsx:248-265 | n crashes are n hits |
| App.Fired | components/Scene.tsx:200 | no more passes than segments |
| App.PassesCount | App.tsx:267-286 | n passes add n pipes for a scoring player, and never change canScore |
| App.Game.constructor | App.tsx:27-67 | a new game sits on the menu at level 1, with default players and the stored save |
| App.Game.Start | App.tsx:87-90 | a start is scheduled exactly when none is pending and the mode is not the menu; it clears the save |
| App.Game.CompleteStart | App.tsx:91-99 | the mode and level are set; player 1, and player 2 in a challenge, get a fresh run |
| App.Game.Restart | App.tsx:102-110 | back to the menu with the save cleared and nothing pending |
| App.Game.SaveGame | App.tsx:112-136 | a game that is playing or paused is written to storage and to the slot; otherwise nothing changes |
| App.Game.LoadGame | App.tsx:138-165 | a stored game restores the mode, the level and the players, ready to fly; player 2 gets the defaults for missing figures |
| App.Game.QuitToMenu | App.tsx:167-173 | the game is saved when saving is allowed, then both players go back to the menu |
| App.Game.Pause | App.tsx:184-200 | the single pause toggles player 1; the challenge pause pauses or resumes both |
| App.Game.ResumeFromLevel | App.tsx:202-208 | player 1 is resumed and nothing else changes |
| App.Game.NextLevel | App.tsx:210-234 | past the last level, the players win and the save is cleared; otherwise the level goes up and the players advance |
| App.Game.Flap | App.tsx:236-246 | a flap from ready starts the run and a new recording; a flap by a playing player 1 appends its time to the recording |
| App.Game.Hit | App.tsx:248-331 | a crash or trap hurts exactly the player it belongs to |
| App.Game.CoinCollect | App.tsx:291-312 | a coin counts for exactly the player it belongs to |
| App.Game.PipePass | App.tsx:267-289 | a pass counts for its player at the current level's pipe count; completing the level keeps the recording for the ghost |
| App.Game.PassWith | App.tsx:267-286 | the same, for a given pipe count |
| App.Game.Feel | App.tsx:248-331 | one event acts on its player |
| App.Game.FeelAll | App.tsx:248-331 | a run of events acts on its player in order |
| App.Game.PassAll | components/Scene.tsx:200 | every fired pass counts for player 1 |
| App.Game.PassAllWith | App.tsx:267-286 | the loop over the pass flags gives Passes of the fired count, and keeps the recording on level completion |
| App.Game.ApplyFrame | components/Scene.tsx:187-200 | player 1's events and passes, then player 2's events, act on the players |
| App.Game.ChallengeSync | App.tsx:334-364 | the players become their synced pair |

## Left out

- Audio (hooks/useSounds.ts, playSound, playMusic, stopMusic, the music effect and mute toggle) is not modelled: it has no effect on the game state.
- Rendering is not modelled: GameUI, RealStars, UFO.tsx animation, three.js geometry, materials, colours and coin rotation (PipeSystem.tsx:195-200). The pipe colour is kept as a string.
- Box overlap is a function parameter. `Box3.setFromObject` depends on mesh geometry, which is not part of this model.
- Floating point is modelled as exact `real` arithmetic. Rounding is not modelled.
- Random draws and `Date.now()` are arguments. `Flap` requires a clock that does not go backwards.
- Input listeners (handlePointerDown, the key handler) and handleExit with `window.close` are not modelled. They only call the flap refs, or save and close the window.
- The `setTimeout` in handleStart is two methods (`Start`, `CompleteStart`). The timer itself is not modelled.
- React batching is modelled as atomic handler transitions, applied in the order the events fire. canScore and level do not change within one frame.
- App.FeltAll / App.Game.ApplyFrame: the extra life of a 25th coin (App.tsx:300-302) is queued from inside the star-coin updater, so in the source it lands after the frame's crash decrements and their game-over (App.tsx:255-260). The model applies every event in firing order, so a frame with a 25th coin followed by a fatal crash would differ. The two agree on every frame the game can produce, since no item is ever picked up (`SceneSim.NoPickupFromLanes`).
- Entering the ready or start state lays the pipe pool out twice in sequence: first PipeSystem's own effect (`Pipes.PipeSystem.OnGameState`, PipeSystem.tsx:173-177), then the Scene effect's `reset` (`SceneSim.Scene.OnStatesChanged`, Scene.tsx:101-104) with fresh random draws. The second layout is the one the game plays; the model has both members but does not compose them into one step.
- A corrupt save (the JSON parse error path of App.tsx:63-66 and 160-163) is not modelled. The storage holds well-formed save data, so `App.Game.constructor` requires a tidy save.
- The scene's refs are assumed mounted. The UFO ref tests at Scene.tsx:136,183,191 and the pipe-system ref test at Scene.tsx:136 always pass. The ghost ref tested at Scene.tsx:204 is mounted exactly when `GhostShown` holds.
- The source's recordingRef is an aliased mutable object. The model copies the recording by value into `lastRecording`. It reads the same, because the recording is replaced rather than mutated after a level completes.
- Levels.GetLevelConfig: requires level >= 1. A level below 1 would index before the table, and no caller passes one.
- SceneSim.Fallen: states only the tilt range. Its height and speed are stated by FlapLifts and FallsWithoutFlap.
- Pipes.PipeSystem.Scroll: coin rotation is not modelled.

Places where the model follows the code rather than the game's stated design:

- Victory (App.tsx:212-216) is applied even to a player who is game over.
- A revived challenger (App.tsx:353-361) gets a life back but not canScore.
- handlePipePass2 is never wired. Every pass goes to player 1 (Scene.tsx:200), so `ApplyFrame` counts passes for player 1 only.
- Items sit at x = 0 while the UFOs fly at x = ±2.5 (Scene.tsx:32-35, PipeSystem.tsx:139). As written no coin or trap is ever picked up (`NoPickupFromLanes`). The intended position is unclear, so this is not listed as a finding.
- A flap of player 2 in a challenge is recorded as well, whenever player 1 is playing (App.tsx:242-244).
- The single-player pause (App.tsx:187) sets any state other than playing to playing.

## Findings

| source | as written | input that shows it | evidently intended | confidence | as-written member | corrected member |
|---|---|---|---|---|---|---|
| components/Scene.tsx:120-132 | the flap refs call `onFlap` (handleFlap) only while that player is already playing; nothing else leaves the ready state, since the pause button shows only while playing or paused | load a game or press Next Level, so player 1 is ready; press Space: FlapP1 sees `ready` and returns without calling handleFlap, so the state stays ready | every flap of an active player reaches handleFlap, which starts the run from ready; only the impulse is gated on playing | not executed | App.NoFlapStartsARun (with App.ForwardedAsWritten, SceneSim.Scene.FlapP1) | App.FirstFlapStartsTheRun (with App.Forwarded, App.Game.Flap) |
