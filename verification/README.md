# Level 6-7: a Dafny model of the gameplay core

"Level 6-7" is a small browser platformer. The player jumps along a staircase
of platforms and collects coins. The score is capped at 67. Going past the cap
starts a green "glitch" that resets the level, and touching the trick star
ends the game. This project models the gameplay state machine that sits
inside the Phaser scene callbacks, and the app component's screen routing.

The model is functional. Each scene is an immutable `State` record with pure
transition functions. Every `Phaser.Math.Between` draw becomes a parameter
with a range predicate (`ValidRoll`, `DrawnValue`, `ValidFrameRolls`, `ValidVariedGravity`, ...).
The engine decides collisions and overlaps. In the model these arrive as
events, and "grounded" (`touching.down`) is a boolean input. Each scene's
`Step` dispatches one event, and `Run` applies a sequence of events.

Modules:

- `Scoring`: the coin value draws, adding a coin value with the clamp at 67 (`AddCoin`), and folding it over many coins (`Accumulate`).
- `Level`: `createLevel`'s staircase of 20 jittered platforms.
- `Coins`: `spawnCoins`' 80 coins, the fixed row of 11 coins in the simpler scenes, and removing a collected coin.
- `Movement`: steering, the jump, the random ±800 kick, the random gravity glitch, and the range of the periodic gravity variation.
- `Glitch`: the 10-flash counter of `triggerGlitch`.
- `Scene`: what the two full scenes share, namely the spawn point, the draws of one level and a transition's outcome with its score reports.
- `MainScene`: the merged scene, src/components/PhaserGame.jsx.
- `SceneD`: the earlier full scene, other/PhaserGameD.jsx. It has no game over and no gravity glitch in `update`, and its reset is unguarded.
- `SceneTwo`: other/PhaserGame2.jsx. Coins are worth 6 or 7, movement is ±160, the jump is −330, and there is a trick star.
- `SceneBasic`: src/PhaserGame.jsx. The same as `SceneTwo` without the star and without game over.
- `Router`: the start → game → void → start routing of src/App.jsx.
- `Session`: the main scene's score reports feeding the router.
- `ColliderBinding`: which group objects the colliders are bound to. It supports the finding below.

Three behaviours of the code are easy to miss:

- The glitch starts only when the raw sum goes past 67 (`score > 67`). Landing exactly on 67 does not start it.
- `collectTrickStar` reports nothing to the score observer, and it has no game-over guard of its own. After game over the engine stops delivering overlaps, because physics is paused.
- The D variant has no gravity glitch in `update`.

## Model

| member | source | states |
|---|---|---|
| Scoring.AddCoin | src/components/PhaserGame.jsx:197-201 | new score is min(score+v, 67); overflow flag iff score+v > 67; never above 67, never below the old score for v ≥ 0, stays in [0,67] |
| Scoring.AccumulateBounds | src/PhaserGame.jsx:74-75 | n coins each worth lo..hi from a score s in range give a score between min(s+lo·n, 67) and min(s+hi·n, 67), in [0,67] and ≥ s |
| Level.Staircase | src/components/PhaserGame.jsx:174-178 | the first n platforms: exactly n of them, platform i offset from (100+150i, 580−100i) by exactly the i-th roll |
| Level.JitterBoxesRise | src/components/PhaserGame.jsx:175-176 | platforms inside their jitter boxes have x strictly increasing and y strictly decreasing, because the step exceeds the jitter |
| Level.CreateLevel | src/components/PhaserGame.jsx:170-179 | exactly 20 platforms; x in 100+150i±40, y in 580−100i±25; strictly rising staircase; each platform carries its own roll |
| Coins.SpawnFrom | src/components/PhaserGame.jsx:185-192 | n coins from n rolls, each at its rolled position, coin6 iff its texture roll is 0 |
| Coins.SpawnCoins | src/components/PhaserGame.jsx:181-193 | exactly 80 fresh coins, each in [50,750]×[50,400], coin6 exactly where the 0..7 roll was 0, coin7 otherwise |
| Coins.RemoveAt | src/components/PhaserGame.jsx:196 | disabling coin k leaves all other coins in order, one fewer, same multiset minus that coin |
| Coins.CoinRow | src/PhaserGame.jsx:53-57 | 11 plain coins at (12+70i, 0), strictly left to right |
| Movement.Steer | src/components/PhaserGame.jsx:154-156 | vx ∈ {−speed, 0, speed}; −speed iff left; speed iff right and not left; 0 iff neither |
| Movement.Kick | src/components/PhaserGame.jsx:228-232 | a 1..50 roll of 6 gives 800, 7 gives −800, and only those rolls change vx |
| Movement.Jump | src/components/PhaserGame.jsx:158-159 | vy becomes the impulse iff up is held while touching down; otherwise it is unchanged |
| Movement.GravityGlitch | src/components/PhaserGame.jsx:164-166 | gravity is replaced by the second draw iff the 0..1000 roll is < 3; any change lands in [100,600]; the range is preserved |
| Glitch.FlashTick | src/components/PhaserGame.jsx:241-248 | one tick counts a flash; the timer finishes iff the count reaches 10 |
| Glitch.AfterTicks | src/components/PhaserGame.jsx:236-250 | n ticks after creation the timer has made n flashes while n < 10, and is finished iff n ≥ 10 |
| Glitch.ResetOnTenthTick | src/components/PhaserGame.jsx:244-246 | tick n is the one that finishes the timer iff n = 10 |
| Glitch.RemoveTimer | src/components/PhaserGame.jsx:245 | removing timer k keeps the other timers in order |
| MainScene.Create | src/components/PhaserGame.jsx:64-130 | initial state is valid: score 0, no game over, physics running with body gravity on, gravity 300, player at (100,450) at rest, star in play, the level and the 80 coins built from the given draws, no glitch |
| MainScene.ResetLevel | src/components/PhaserGame.jsx:253-261 | once game over: no change and no report; otherwise score 0 reported, fresh level and coins, player at (100,450), gravity 300, everything else kept; validity preserved |
| MainScene.TriggerGlitch | src/components/PhaserGame.jsx:234-240 | adds exactly one new flash timer at 0 flashes and changes nothing else |
| MainScene.CollectCoin | src/components/PhaserGame.jsx:195-205 | score becomes min(score+v, 67) and never drops; the new score is always reported; that coin removed; a glitch starts iff score+v > 67 |
| MainScene.CollectTrickStar | src/components/PhaserGame.jsx:207-212 | latches game over, zero velocity, body gravity off, physics paused, star disabled; nothing else changes |
| MainScene.Update | src/components/PhaserGame.jsx:151-167 | no-op once game over; else vx ∈ {±800, ±300, 0} with left priority, kicks on 6/7, jump −300 only if up and grounded, gravity replaced only on roll < 3 |
| MainScene.FlashTick | src/components/PhaserGame.jsx:238-250 | a tick before the tenth only counts; the tenth removes the timer and performs the (guarded) reset |
| MainScene.ExpireStar | src/components/PhaserGame.jsx:122-124 | the timeout disables the star and changes nothing else |
| MainScene.VaryGravity | src/components/PhaserGame.jsx:139-147 | the 3 s timer sets world gravity to its draw in [270,330], also after game over, and changes nothing else |
| MainScene.Step | src/components/PhaserGame.jsx:99-130 | every delivered event keeps the invariant: score in [0,67], gravity in [100,600], a well-formed level, ≤ 80 coins in the box, frozen player once over |
| MainScene.GameOverIsAbsorbing | src/components/PhaserGame.jsx:152 | after game over no event clears it, reports, or changes the score, the player's velocity, the level or the coins; gravity changes only through the variation timer |
| MainScene.ScoreFallsOnlyOnReset | src/components/PhaserGame.jsx:253-256 | an event either keeps or raises the score, or resets it to 0 and reports 0 |
| MainScene.ObserverSeesEveryChange | src/components/PhaserGame.jsx:203 | reports are empty or exactly the new score, and every score change is reported |
| MainScene.GlitchOnlyOnOverflow | src/components/PhaserGame.jsx:199-202 | a new glitch timer appears iff a delivered coin pushes score+v past 67 |
| MainScene.RunPreservesValid | src/components/PhaserGame.jsx:195-261 | any run of events from a valid state stays valid, so the score stays in [0,67] |
| MainScene.GameOverStaysOver | src/components/PhaserGame.jsx:209-212 | after game over, any run keeps it over with the score, velocity, level and coins frozen and nothing reported; gravity is the old one or the value of some variation-timer event of the run |
| MainScene.NoResetBeforeTenthTick | src/components/PhaserGame.jsx:241-244 | a fresh glitch timer ticked n < 10 times stands where the bare counter Glitch.AfterTicks(n) does: n flashes, no reset, no report |
| MainScene.ResetOnTenthTick | src/components/PhaserGame.jsx:244-247 | the tenth tick of a fresh timer, on which the bare counter finishes, removes it and performs resetLevel |
| SceneD.Create | other/PhaserGameD.jsx:61-138 | initial state is valid: score 0, gravity 300, player at (100,450) at rest, the level and the 80 coins built from the given draws, no glitch |
| SceneD.ResetLevel | other/PhaserGameD.jsx:212-220 | unconditional: score 0 reported, fresh level and 80 coins, player at (100,450), gravity 300, velocity and timers kept |
| SceneD.CollectCoin | other/PhaserGameD.jsx:109-119 | score min(score+v, 67) and never drops, always reported, coin removed, glitch iff score+v > 67 |
| SceneD.Update | other/PhaserGameD.jsx:140-158 | always acts; vx ∈ {±800, ±300, 0} with left priority and the 6/7 kick override; jump −300 only if up and grounded |
| SceneD.FlashTick | other/PhaserGameD.jsx:197-209 | a tick before the tenth only counts; the tenth removes the timer and always resets |
| SceneD.VaryGravity | other/PhaserGameD.jsx:129-137 | the 3 s timer sets world gravity to its draw in [270,330] and changes nothing else |
| SceneD.Step | other/PhaserGameD.jsx:95-122 | every event keeps score in [0,67], gravity in [100,600], a well-formed level and ≤ 80 coins in the box |
| SceneD.ScoreFallsOnlyOnReset | other/PhaserGameD.jsx:110-113 | an event either keeps or raises the score, or resets it to 0 and reports 0 |
| SceneD.ObserverSeesEveryChange | other/PhaserGameD.jsx:110-117 | every collection reports the new score, every spike contact reports 0, and any change is reported |
| SceneD.GlitchOnlyOnOverflow | other/PhaserGameD.jsx:112-115 | a glitch timer appears iff a delivered coin pushes score+v past 67 |
| SceneD.NoResetBeforeTenthTick | other/PhaserGameD.jsx:200-203 | a fresh glitch timer ticked n < 10 times stands where the bare counter Glitch.AfterTicks(n) does: n flashes, no reset, no report |
| SceneD.ResetOnTenthTick | other/PhaserGameD.jsx:203-206 | the tenth tick, on which the bare counter finishes, removes the timer and always resets: score 0, report 0 |
| SceneTwo.Create | other/PhaserGame2.jsx:44-99 | initial state is valid: score 0, the 11-coin row, star in play |
| SceneTwo.CollectCoin | other/PhaserGame2.jsx:101-106 | score min(score+v, 67) for v ∈ {6,7}, never drops, coin removed, nothing else changes |
| SceneTwo.CollectTrickStar | other/PhaserGame2.jsx:108-139 | latches game over, zero velocity, body gravity off, physics paused, star disabled |
| SceneTwo.Update | other/PhaserGame2.jsx:141-155 | no-op once game over; else vx ∈ {−160, 0, 160} with left priority, jump −330 only if up and grounded, gravity replaced only on roll < 3 |
| SceneTwo.ExpireStar | other/PhaserGame2.jsx:83-87 | the timeout disables the star and changes nothing else |
| SceneTwo.Step | other/PhaserGame2.jsx:90-93 | each event keeps the invariant and never lowers the score; once over, nothing that matters changes |
| SceneTwo.RunScoreNeverFalls | other/PhaserGame2.jsx:101-106 | any run stays valid and the score only grows, up to 67; this scene never resets |
| SceneTwo.GameOverStaysOver | other/PhaserGame2.jsx:142 | after game over, any run keeps score, velocity, gravity and coins frozen |
| SceneBasic.Create | src/PhaserGame.jsx:41-70 | initial state is valid: score 0 and the 11-coin row |
| SceneBasic.CollectCoin | src/PhaserGame.jsx:72-77 | score min(score+v, 67) for v ∈ {6,7}, never drops, coin removed |
| SceneBasic.Update | src/PhaserGame.jsx:79-91 | no game-over guard; vx ∈ {−160, 0, 160} with left priority, jump −330 only if up and grounded, gravity replaced only on roll < 3 |
| SceneBasic.Step | src/PhaserGame.jsx:63-64 | each event keeps the invariant and never lowers the score |
| SceneBasic.RunIsAccumulation | src/PhaserGame.jsx:72-77 | a run's score is the clamped sum of the coin values it collected, each in 6..7 |
| SceneBasic.ScoreAfterCollections | src/PhaserGame.jsx:74-75 | after n collections from 0 the score lies between min(6n, 67) and min(7n, 67) |
| Router.OnStart | src/App.jsx:31 | sets started and keeps the exit flag |
| Router.HandleScoreUpdate | src/App.jsx:10-12 | a report ≥ 67 raises the exit flag; a lower one (including the reset's 0) changes nothing |
| Router.HandleEscape | src/App.jsx:14-17 | clears both flags: back to the initial state |
| Router.Current | src/App.jsx:30-37 | the screen shown is the only one mounted: start iff !started, game iff started ∧ ¬exit, void iff started ∧ exit |
| Router.ExactlyOneScreen | src/App.jsx:30-51 | the render mounts exactly one screen |
| Router.Step | src/App.jsx:30-51 | callbacks from the mounted screen keep "exit flag implies started" |
| Router.StepFollowsCycle | src/App.jsx:30-51 | each event keeps the screen or moves it one step along start → game → void → start |
| Router.CycleSteps | src/App.jsx:31-48 | start→game only by onStart, game→void only by a report ≥ 67, void→start only by escape |
| Session.LowReportsKeepScreen | src/App.jsx:10-12 | reports below 67 leave the router unchanged |
| Session.CoinAtCapShowsVoid | src/components/PhaserGame.jsx:199-203 | a coin moves the app from the game to the void iff score+v ≥ 67; otherwise the app is unchanged |
| Session.ResetKeepsGame | src/components/PhaserGame.jsx:255-256 | the 0 reported by a reset never changes the screen |
| ColliderBinding.CreateAsWritten | src/components/PhaserGame.jsx:95-129 | after create the collider and overlap hold the live groups: 20 solid platforms, 80 collectable coins |
| ColliderBinding.CreateLevelAsWritten | src/components/PhaserGame.jsx:170-172 | createLevel as written empties the old platform group and puts 20 platforms in a brand-new group; the colliders keep their groups |
| ColliderBinding.SpawnCoinsAsWritten | src/components/PhaserGame.jsx:181-183 | spawnCoins as written empties the old coin group and puts 80 coins in a brand-new group; the overlap keeps its group |
| ColliderBinding.ResetAsWritten | src/components/PhaserGame.jsx:257-258 | resetLevel as written: both old groups emptied, both variables moved to new groups, colliders left on the old ones |
| ColliderBinding.AsWrittenResetStrandsColliders | src/components/PhaserGame.jsx:253-258 | after a reset as written, 20 platforms and 80 coins exist, but 0 are solid and 0 collectable |
| ColliderBinding.FirstResetStrandsColliders | src/components/PhaserGame.jsx:99-101 | the first spike contact already leaves no collectable coin and no solid platform |
| ColliderBinding.CreateLevelRefilled | src/components/PhaserGame.jsx:171 | corrected createLevel: the same platform group now holds 20 platforms; colliders unchanged |
| ColliderBinding.SpawnCoinsRefilled | src/components/PhaserGame.jsx:182 | corrected spawnCoins: the same coin group now holds 80 coins; overlap unchanged |
| ColliderBinding.ResetRefilled | src/components/PhaserGame.jsx:253-258 | corrected reset: same groups, refilled with 20 platforms and 80 coins, colliders unchanged |
| ColliderBinding.RepeatRefilled | src/components/PhaserGame.jsx:253-258 | after n ≥ 1 corrected resets the same groups hold 20 platforms and 80 coins |
| ColliderBinding.RefilledResetKeepsWiring | src/components/PhaserGame.jsx:253-258 | with groups refilled in place, any number of resets keeps all 20 platforms solid and all 80 coins collectable |

## Left out

- Phaser engine behaviour is not modelled. This covers collision and overlap detection, `touching.down` (an input here), world bounds, bounce, the tweened moving platform and physics integration. `pos` and `vel` hold only the values the scene itself sets. Every position the full scenes set is the spawn point (100,450), so `pos` records only that request and no claim is made about where the player is.
- `Step` in each scene encodes what the engine delivers: an overlap or collision arrives only while physics runs, and only for enabled bodies.
- Randomness is modelled only as range-constrained parameters. Frequencies (the 1/8 coin6 rate, the 2/50 kick, the 3/1001 gravity glitch) are not modelled.
- The periodic gravity variation `300 * FloatBetween(0.9, 1.1)` is a `GravityVariation` event carrying an integer in [270,330]. The fractional values in between are not modelled, because they are floating point. Neither are the bounce factors or the 0.5/0.35 scales.
- Wall-clock timing is left out: the 6.7 s star timeout, the 150 ms flash interval and the 3000 ms timer. They appear only as untimed events (`StarTimeout`, `FlashTimerTick`, `GravityVariation`). Their order relative to frames is arbitrary.
- Audio, text objects, the camera flash and the `glitching` CSS filter (`setGlitching`) are left out. So are mount/unmount teardown and `game.destroy`.
- The `!cursors` guard in `update` is left out. Phaser calls `update` only after `create` has set the cursors.
- The spike, the moving platform and the star's spawn point are left out. Spike contact is the `SpikeContact` event.
- src/components/StartScreen.jsx, src/components/Level68Void.jsx and src/components/ScoreDisplay.jsx are presentational and are not part of this model.
- Router.Step: callbacks are delivered only from the mounted screen. React does not guarantee this; the screens' structure does.
- MainScene.Step: a coin overlap reaches the player against the current coins, and platform collisions act on the current platforms, after any number of resets. As written, none does after the first reset, because the colliders stay bound to the emptied groups (see Findings). The model therefore over-approximates what the player can still do.
- SceneD.Step: the same over-approximation. As written, other/PhaserGameD.jsx also rebinds neither collider after its first reset.
- MainScene.ResetOnTenthTick: describes the scene on its own. In the shipped app a glitch never reaches its tenth tick. The coin that starts it reports 67, the router then shows the void screen, and unmounting the game destroys the scene (src/components/PhaserGame.jsx:276).
- Score, gravity and velocities are unbounded integers. JavaScript numbers never approach their limits here.

## Findings

| source | as written | input that shows it | evidently intended | confidence | as-written member | corrected member |
|---|---|---|---|---|---|---|
| src/components/PhaserGame.jsx:253-258 | `resetLevel` replaces `platforms` and `coins` with new group objects, but the collider (line 95) and the coin overlap (line 129) stay bound to the old, emptied groups. other/PhaserGameD.jsx:212-216 does the same. | One spike contact (or a finished glitch) after `create`. The new 20 platforms are not solid and none of the 80 new coins can be collected. | The regenerated level is playable: colliders act on the new platforms and coins | not executed; relies on a Phaser collider keeping the group object it was given | ColliderBinding.AsWrittenResetStrandsColliders | ColliderBinding.RefilledResetKeepsWiring |
