# Arcade minigames: the game rules, verified

This project models the game rules of four browser minigames and the score
store they share. Rendering is left out. Each game runs a per-frame step and
reacts to keys. It reads and updates a store that holds the score, the high
score and the phase (idle, playing, game over).

- `store.dfy` (module `Store`): the store record and its four actions,
  `startGame`, `endGame`, `addScore` and `reset`. Each action is a function
  from the old record to the new one. The actions are not guarded: start and
  end apply from any phase. Run lemmas show three things: the two flags
  `gameOver` and `gameStarted` always agree with the phase; the high score
  never drops; and after any run of actions the high score is the best of its
  starting value and every score a game ended with.
- `stack.dfy` (module `Stack`): the tower builder. `Cut` is the placement
  geometry. On the current axis, the kept block is the intersection of the
  swinging block's interval with the top block's interval. The debris is the
  overhang. The scene class holds the tower, the debris list, the axis and
  the swing speed, and its `HandlePlace` method is the place action. Its
  invariant says each block rests inside the one below, so every block lies
  inside the 3 by 3 base.
- `subway.dfy` (module `Runner`): the endless runner. `Player` holds the lane,
  the jump state and the smoothed x. `Judge` is the collision loop over the
  published pool; it consumes coins in place. `ObstacleManager` holds the
  fixed 25-entry array and recycles entries in place. A lemma over any
  sequence of collision tests and pool frames shows that each entry's coin
  and pass bonus each score at most once per life.
- `race.dfy` (module `Race`): the racer. `Car` handles lane and speed input
  and the frame step. `CheckTraffic` is the crash test. `TrafficManager` holds
  the 10-car array, moves cars by the speed difference and respawns them far
  ahead.
- `tunnel.dfy` (module `Tunnel`): the tunnel dodger. The scene class holds
  the angle, the obstacle list, the speed and the held keys. `Update` is the
  per-frame loop that moves, tests and filters the list; lemmas show the
  filter keeps exactly the entries still in front, in order, and that a coin
  scores at most once. `ScoreTick` says when the periodic point fires.
- `common.dfy` (module `Common`): `Option`, absolute value, three.js `lerp`
  and the one-lane-step clamps.

Randomness is modelled as inputs constrained to the ranges `Math.random`
produces (the `Respawn` and `Spawn` records and their `...Ok` predicates).
The `window.gameObstacles`, `window.traffic` and `window.gameSpeed` globals
become explicit parameters: `None` stands for "not published yet". The
racer's frame takes the last published speed and hands it back unchanged on
a game-over frame, because the code returns before publishing; the caller
passes that value on to the traffic step, which keeps moving. Positions,
speeds and scores are `real`, and the arithmetic is exact.

The model follows the code in these places, which may surprise a reader:
- Every placed stack block keeps the base's y = 0. The placement copies the
  top block's position and changes only the axis coordinate, so the tower
  does not rise (`Stack.Tower`).
- The store does not ignore illegal transitions. `startGame` and `endGame`
  apply from any phase.
- The tunnel's periodic point reads the clock's elapsed time, which is
  defined. It is not an undefined frame counter.
- The runner's collision loop tests every pool entry, hidden or not. A hidden
  coin cannot score again only because its `hit` flag is set.
- After a pool frame, entries lie at or before the despawn depth (z ≤ 20).
  They are not confined to a band between spawn and despawn, because an
  entry can be moved backwards by a negative time step or, in the racer, by
  traffic faster than the player.

Smoothing: `LerpApproaches` shows that one `lerp` step moves towards the
target without overshoot while the coefficient (15·dt for the runner, 5·dt
for the racer) is at most 1. The code does not clamp it. By `Lerp`'s contract
the remaining distance is scaled by 1 - t, so in a runner frame longer than
1/15 s the player swings past the lane.

Ordering within a frame: the racer's crash test runs before the drive score.
So a crash frame ends the game first and then still adds the frame's points.
After that the score is above the high score the end recorded exactly when
the old score plus those points is above the old high score; in particular
it is whenever the score had already reached the high score
(`CrashFrameOutscoresHighScore`). The runner behaves the same way when a coin
follows an obstacle in the same collision pass.

## Model

| member | source | states |
|---|---|---|
| `Store.Initial` | src/store.js:4-8 | initial store: score 0, high score 0, phase idle, both flags false and agreeing with the phase |
| `Store.StartGame` | src/store.js:10-15 | from any record: phase playing, score 0, flags agree, high score kept |
| `Store.EndGame` | src/store.js:17-22 | from any record: phase game over, flags agree, score kept, high score is the larger of score and old high score |
| `Store.AddScore` | src/store.js:24 | only the score changes, by exactly the points |
| `Store.Reset` | src/store.js:26-31 | from any record: phase idle, score 0, flags agree, high score kept |
| `Store.EndGameIdempotent` | src/store.js:17-22 | ending twice gives the same record as ending once |
| `Store.AddScoreAdds` | src/store.js:24 | two awards in a row equal one award of their sum |
| `Store.Apply` | src/store.js:10-31 | every action keeps the high score from dropping and keeps flags agreeing with the phase |
| `Store.RunKeepsFlags` | src/store.js:4-31 | after any run of actions, `gameOver` holds iff phase is game over and `gameStarted` iff playing |
| `Store.RunHighScoreMonotone` | src/store.js:17-22 | the high score after any run is at least the one before |
| `Store.RunHighScoreIsBestEnd` | src/store.js:17-22 | after any run the high score equals the maximum of the starting high score and the scores at every end |
| `Store.Mount` | src/games/subway/SubwayGame.jsx:245-249 | every game's mount (reset, then start) leaves a playing record with score 0 and the high score kept |
| `Common.Lerp` | src/games/subway/SubwayGame.jsx:67 | one smoothing step (three.js `lerp`) scales the remaining distance to the target by 1 - t |
| `Common.LerpApproaches` | src/games/subway/SubwayGame.jsx:66-67 | with coefficient in [0, 1] the new x lies between old x and the target, and the distance shrinks by the factor 1 - t |
| `Common.LaneLeft` | src/games/subway/SubwayGame.jsx:48 | one lane left, never below -1 |
| `Common.LaneRight` | src/games/subway/SubwayGame.jsx:49 | one lane right, never above 1 |
| `Stack.Base` | src/games/stack/StackGame.jsx:62-64 | the tower starts as one 3 by 3 block at the origin |
| `Stack.Hue` | src/games/stack/StackGame.jsx:157-158 | the new block's hue is in [0, 360) |
| `Stack.Flip` | src/games/stack/StackGame.jsx:168 | the axis changes between x and z |
| `Stack.Cut` | src/games/stack/StackGame.jsx:104-146 | placement succeeds iff the two intervals overlap with positive length; the kept interval is their intersection; debris plus kept equals the old size; debris is the overhang on the side of the offset; sizes, coordinates and y across the axis are copied |
| `Stack.PlacedWithin` | src/games/stack/StackGame.jsx:111-113 | a placed block has positive size and rests inside the top block's footprint |
| `Stack.TowerInsideBase` | src/games/stack/StackGame.jsx:62-64 | every block of a tower lies inside the base, so all sizes stay in (0, 3] |
| `Stack.TowerGrows` | src/games/stack/StackGame.jsx:161 | appending a successful placement to a tower gives a tower |
| `Stack.StackScene.constructor` | src/games/stack/StackGame.jsx:62-71 | one base block, no debris, axis x, swing speed 3 |
| `Stack.StackScene.HandlePlace` | src/games/stack/StackGame.jsx:94-171 | no-op unless playing with a mounted block; a miss ends the game and changes nothing else; a hit adds 1, appends exactly one block and one debris, flips the axis, adds 0.1 to the swing speed, and the tower invariant holds |
| `Stack.PlacementExamples` | src/games/stack/StackGame.jsx:105-109 | offset 1 on a 3-wide top keeps 2 and drops 1; offset 3.5 misses |
| `Runner.Fall` | src/games/subway/SubwayGame.jsx:71-80 | no change on the ground; airborne, it lands (y 0.5, velocity 0, jump over) exactly when y + vy·dt ≤ 0.5; otherwise y and velocity integrate velocity and gravity |
| `Runner.FallStaysAboveGround` | src/games/subway/SubwayGame.jsx:71-80 | from y ≥ 0.5 the physics step keeps y ≥ 0.5 |
| `Runner.Touches` | src/games/subway/SubwayGame.jsx:89-93 | the proximity test; with the entry and the player on lane centres it is the same lane, abs(z) < 1.2 and the player's height within 1 of 0.5 |
| `Runner.JudgeSlot` | src/games/subway/SubwayGame.jsx:96-99 | only a touched coin not yet hit changes: it becomes hit and invisible; position, kind and pass mark are kept |
| `Runner.JudgeStore` | src/games/subway/SubwayGame.jsx:93-99 | one entry's test adds 50 exactly for a fresh coin touched; a touched obstacle ends the game and records max(score, high score) as the high score; otherwise the phase and high score are kept; flags keep agreeing |
| `Runner.JudgeAllScore` | src/games/subway/SubwayGame.jsx:88-99 | a collision pass adds exactly 50 per fresh coin touched |
| `Runner.JudgeAllEnds` | src/games/subway/SubwayGame.jsx:88-95 | a collision pass ends a running game iff some touched entry is an obstacle |
| `Runner.JudgeAgainScoresNothing` | src/games/subway/SubwayGame.jsx:96-99 | testing the same entries again at the same place awards no points |
| `Runner.Judge` | src/games/subway/SubwayGame.jsx:87-104 | every entry is tested in order with no early exit; the array and store end as the per-entry rules say |
| `Runner.Player.constructor` | src/games/subway/SubwayGame.jsx:27-31 | lane 0, grounded, velocity 0, x 0, y 0 |
| `Runner.Player.KeyDown` | src/games/subway/SubwayGame.jsx:44-55 | ignored unless playing; left/right clamp the lane to {-1, 0, 1}; a jump starts only when not jumping and y ≤ 0.51, with velocity 8 |
| `Runner.Player.Frame` | src/games/subway/SubwayGame.jsx:62-105 | no-op unless playing; x is the lerp towards lane·3 at 15·dt; jump physics as `Fall`; then the collision pass over the published pool; y stays 0 or ≥ 0.5 |
| `Runner.InitialSlot` | src/games/subway/SubwayGame.jsx:130-141 | entry i starts at x 0, z = -120 - 15i, not hit, visible, not passed |
| `Runner.PassBonus` | src/games/subway/SubwayGame.jsx:156 | an obstacle not yet passed whose moved z is beyond 2 earns the bonus |
| `Runner.Recycles` | src/games/subway/SubwayGame.jsx:161 | an entry whose moved z is beyond 20 is recycled |
| `Runner.AdvanceSlot` | src/games/subway/SubwayGame.jsx:153-168 | z advances by speed·dt, the pass mark is set with the bonus; past z 20 the entry is recycled to z in (-140, -120], a lane in {-3, 0, 3}, flags cleared and visible; after it z ≤ 20 |
| `Runner.AdvancePool` | src/games/subway/SubwayGame.jsx:153-174 | every entry is advanced in place and the score grows by 10 per pass bonus |
| `Runner.ObstacleManager.constructor` | src/games/subway/SubwayGame.jsx:130-145 | 25 entries laid out as `InitialSlot`, speed 20 |
| `Runner.ObstacleManager.Step` | src/games/subway/SubwayGame.jsx:148-177 | no-op unless playing; speed grows by 0.1·dt; every entry advanced; pool stays 25 well-formed entries with z ≤ 20 |
| `Runner.JudgeKeepsSlotOk` | src/games/subway/SubwayGame.jsx:96-98 | the collision pass keeps each entry well formed |
| `Runner.OncePerLife` | src/games/subway/SubwayGame.jsx:96-99 | over any sequence of collision tests and pool frames, an entry's coin and pass bonus each score at most once per recycle plus once |
| `Race.Faster` | src/games/race/RaceGame.jsx:28 | up arrow: 5 faster, never above 50 |
| `Race.Slower` | src/games/race/RaceGame.jsx:29 | down arrow: 5 slower, never below 0 |
| `Race.SpeedControlsKeepRange` | src/games/race/RaceGame.jsx:28-29 | speeds stay multiples of 5 in [0, 50] |
| `Race.Drive` | src/games/race/RaceGame.jsx:66 | adds speed·dt·0.1 only when speed > 0, so the score never drops for dt ≥ 0 |
| `Race.CrashFrameOutscoresHighScore` | src/games/race/RaceGame.jsx:52-66 | on a crash frame at positive speed the game ends, and the final score exceeds the recorded high score iff the old score plus the frame's points exceeds the old high score; so always when the score had already reached the high score |
| `Race.Crash` | src/games/race/RaceGame.jsx:52 | with the car and the player on lane centres, a crash is the same lane and abs(z) < 2 |
| `Race.CheckTraffic` | src/games/race/RaceGame.jsx:48-56 | ends the game iff some car has abs(z) < 2 and abs(x - xPos) < 1.5; every car is tested |
| `Race.PublishedSpeed` | src/games/race/RaceGame.jsx:111 | the published speed, or 0 when none is published |
| `Race.Car.constructor` | src/games/race/RaceGame.jsx:15-18 | lane 1, x 0, speed 0 |
| `Race.Car.KeyDown` | src/games/race/RaceGame.jsx:24-30 | nothing once over; lane clamps to {-1, 0, 1}, speed to [0, 50] in steps of 5 |
| `Race.Car.Frame` | src/games/race/RaceGame.jsx:35-67 | once over nothing changes and the published speed is left as it was; otherwise x lerps towards lane·3 at 5·dt, the speed is published, then the crash test, then the drive score; score never drops for dt ≥ 0 |
| `Race.InitialCar` | src/games/race/RaceGame.jsx:98-106 | car i starts at z = -100 - 30i on a lane with speed in [10, 30) |
| `Race.Respawns` | src/games/race/RaceGame.jsx:128-131 | a car whose z moved by (player speed - car speed)·dt is beyond 20 is respawned |
| `Race.AdvanceCar` | src/games/race/RaceGame.jsx:128-136 | z moves by (player speed - car speed)·dt; past z 20 the car respawns at z in (-300, -200], on a lane, speed in [10, 30); after it z ≤ 20 |
| `Race.AdvanceTraffic` | src/games/race/RaceGame.jsx:115-142 | every car is advanced in place |
| `Race.TrafficManager.constructor` | src/games/race/RaceGame.jsx:98-107 | 10 cars laid out as `InitialCar` |
| `Race.TrafficManager.Step` | src/games/race/RaceGame.jsx:109-143 | runs in any phase; every car advanced by the published speed; the pool stays 10 well-formed cars |
| `Tunnel.Spawned` | src/games/tunnel/TunnelGame.jsx:119-126 | a spawn is active at z -100 with angle k·2π/16, which lies in [0, 2π) for 0 ≤ k < 16 |
| `Tunnel.Steer` | src/games/tunnel/TunnelGame.jsx:114-115 | left adds 3·dt, right subtracts 3·dt, both or neither leave the angle |
| `Tunnel.InReach` | src/games/tunnel/TunnelGame.jsx:136 | an entry is in reach when it is still active and abs(z) < 1 |
| `Tunnel.CoinHit` | src/games/tunnel/TunnelGame.jsx:136-144 | a coin in reach after the move and at the player's angle scores |
| `Tunnel.ObstacleHit` | src/games/tunnel/TunnelGame.jsx:136-141 | an obstacle in reach after the move and at the player's angle ends the game; such an entry is active and never also a coin hit |
| `Tunnel.Frame1` | src/games/tunnel/TunnelGame.jsx:133-146 | z advances by speed·dt; only a coin hit switches an entry off; an inactive entry stays inactive |
| `Tunnel.HitStore` | src/games/tunnel/TunnelGame.jsx:136-146 | one entry's test adds 50 exactly for a coin hit; an obstacle hit ends the game and records max(score, high score) as the high score; otherwise the phase and high score are kept; flags keep agreeing |
| `Tunnel.Survivors` | src/games/tunnel/TunnelGame.jsx:130-156 | the new list is no longer than the old and every entry has z < 10 |
| `Tunnel.Update` | src/games/tunnel/TunnelGame.jsx:130-156 | the loop builds exactly `Survivors` and the store as each entry's hit rule says |
| `Tunnel.SurvivorsOfPrefix` | src/games/tunnel/TunnelGame.jsx:130-156 | the survivors of a prefix are a prefix of the survivors |
| `Tunnel.SurvivorAt` | src/games/tunnel/TunnelGame.jsx:153 | an entry with new z < 10 is in the new list at its rank among survivors, so order is kept |
| `Tunnel.DroppedAt` | src/games/tunnel/TunnelGame.jsx:153 | an entry with new z ≥ 10 is dropped |
| `Tunnel.UpdateScore` | src/games/tunnel/TunnelGame.jsx:139-146 | a frame adds exactly 50 per coin hit |
| `Tunnel.UpdateEnds` | src/games/tunnel/TunnelGame.jsx:136-141 | a frame ends a running game iff an active obstacle with abs(z) < 1 is at the player's angle |
| `Tunnel.CoinScoresOnce` | src/games/tunnel/TunnelGame.jsx:136-146 | over any number of frames an entry scores as a coin at most once, never once inactive |
| `Tunnel.ScoreTick` | src/games/tunnel/TunnelGame.jsx:159 | the periodic point fires exactly in the first tenth of each 1/6 second of elapsed time |
| `Tunnel.TunnelScene.constructor` | src/games/tunnel/TunnelGame.jsx:83-89 | angle 0, no obstacles, speed 15, no keys held |
| `Tunnel.TunnelScene.KeyDown` | src/games/tunnel/TunnelGame.jsx:91-94 | pressing left or right marks it held |
| `Tunnel.TunnelScene.KeyUp` | src/games/tunnel/TunnelGame.jsx:95-98 | releasing left or right clears it |
| `Tunnel.TunnelScene.Frame` | src/games/tunnel/TunnelGame.jsx:107-163 | no-op unless playing; speed grows by 0.1·dt; angle steered; optional spawn (a segment in [0, 16)) appended; list updated with hits tested against the angle the frame started with; periodic point |

## Left out

- Rendering: meshes, materials, trails, sparkles, stars, lights, fog, the HUD, and the runner's score/10 display. These are presentation.
- Camera follow and tilt effects, the debris fall animation, the runner's grid scroll and the racer's empty road update. These are cosmetic.
- The swinging block's `sin` motion: the active block's position is an input to `HandlePlace`. `timeOffset` (always 0) goes with it.
- The tunnel ship's placement uses cos and sin. The `atan2` angle difference is the abstract hit test `near`.
- Floating-point rounding: all arithmetic is exact over `real`.
- `Math.random` and `Date.now` are inputs, not generators. The entry ids (`Date.now() + Math.random()`, array index) and the racer's random car colours are left out.
- React hooks, listener re-binding, stale closures and setState batching. In the tunnel, the functional updates are treated as running in program order inside the frame (spawn, then the list update, then the periodic point). React's deferral of updaters to the next render is not modelled.
- Whether a mesh is mounted: the runner's player and the scenes are taken as mounted. Only the stack's swinging block may be absent.
- `confetti`, `window.location.reload` and `navigate` are foreign side effects.
- The runner's `active` flag (set once, never read), the racer's `zPos` ref and its unused `ACCELERATION`/`BRAKING` constants: none of them affects the rules.
- `src/App.jsx` and `src/GameHub.jsx` are routing and menu screens with no game logic.
