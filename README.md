# DoodleJumpGame: the client simulation, modelled and proved in Dafny

This project models the game simulation of the browser client `DoodleJumpGame`
(`public/game.js`). That is everything one tick of `update` reads and changes:

- the player record;
- the run state `localState`: score, coins, combo, the rocket, shield and magnet
  flags and their timers, the game-over flag and the achievements;
- the camera offset `cameraY`;
- the lists of platforms, items and particles.

It also models the generators that build the world, and the `gameOver` ⇄
`restartGame` lifecycle.

The model follows the structure of the source:

- `Entities` holds the records and the constants of the canvas and the sprites.
- `Scoring` is `calculatePoints`.
- `Generator` covers the weighted type pick of `generatePlatform` and the slot
  table of `generateItem`.
- `Collision` covers:
  - `checkCollision`;
  - the swept landing test of `update`;
  - the switch and the snap of `handlePlatformCollision`;
  - the pass of `update` over the whole platform list.
- `Effects` is what `createParticles`, `showScorePopup` and `updateParticles`
  do to the particle list.
- `World` holds the per-element rules of a tick:
  - moving platforms;
  - the magnet pull;
  - the power-up countdowns;
  - item pickup and the item sweep;
  - the pruning filters;
  - the camera step's backfill and item spawn;
  - the initial world.
- `Game` is the class `DoodleJumpGame`. Its fields are updated in place by
  methods named after the source's methods. The long bodies are split into
  several methods:
  - `update` into `TickWorld`, `MovePlayer`, `LandingStep` and `CameraAndFall`
    (that is, `FollowCamera` then `CheckFall` with `ShieldRescue`);
  - `handlePlatformCollision` into `RespondTo`, `SnapOnto` and `ScoreLanding`;
  - `restartGame` into `ResetRun` and the generators.

  Each method is proved against the functions of the other modules. The
  fields one tick changes form the value `GameState`. Every step of `update`
  ends in exactly the state its `GameState` function gives (`LandingTick`,
  `CameraTick`, `FallTick`, `Tick` and the others). `Update` is proved to keep
  the class invariant `Valid`.

`Math.random` is modelled as a stream `random: nat -> real`, and the class field
`drawn` counts the values consumed. Every method that draws states which stream
positions it reads and how far it advances `drawn`, either directly or through
those functions. So the particles, platforms and items are determined values,
not arbitrary ones. `UnitDraws(random)` says every value lies in [0, 1).

Some facts of the source shape the model:

- The table of `generatePlatform` lists `green` three times. Breakable platforms
  are the top 2 percent of the draw. No draw ever yields a `rocket`
  platform, so the rocket branches of `handlePlatformCollision` and
  `calculatePoints` are modelled but never reached from a generated world.
- The scoring test of `handlePlatformCollision` (line 1040) runs after the snap
  at line 1036. So "platform above the player's screen position" reduces to
  `cameraY > 46`. The camera starts at 0 and only moves up (to smaller y). As a
  result:
  - no landing ever adds to score or combo;
  - the combo stays 0 throughout;
  - score grows only through coins.

  `Valid` records this, and `Collision.ScoringNeedsLowCamera` and
  `Collision.PassNeverScores` prove it.
- The camera step calls `generatePlatform()` with offset 0, so the platform it
  adds always sits at y = 550. Once the camera is 150 or more above its start,
  the filter that follows drops that platform at once.
- With an empty platform list, the camera step's read of the last platform
  throws a TypeError. `Update` reports that case as `thrown`.

## Functions without a contract of their own

These functions only compute. The lemmas and methods named beside each one state, in their contracts, what it computes:

- `Collision.CheckCollision`: `Collision.CollisionIsSharedInterior` and `Collision.CollisionSymmetric`.
- `Collision.Lands`, the swept landing test: `Collision.PassHandlesEveryMatch`, `Collision.PassLandedIffSomeMatch` and `Game.DoodleJumpGame.VisitPlatform`.
- `Collision.Respond`, the switch: `Collision.BounceImpulse`, `Collision.BreakableContact`, `Collision.BrokenIsInert`, `Collision.RocketOnlyFromRocketPlatform` and `Collision.BreakableRule`.
- `Collision.StartRocket`: `Collision.RocketOnlyFromRocketPlatform` and `Game.DoodleJumpGame.ActivateRocket`.
- `Collision.Snap` and `Collision.ComboMilestone`: `Collision.SnapScores`, `Collision.SnapAppends`, `Collision.SnapKeepsPowerUps` and `Game.DoodleJumpGame.ScoreLanding`.
- `Collision.Collide` and `Collision.Visit`: `Collision.CollideKeepsX`, `Collision.CollideKeepsPowerUps`, `World.CollideKeepsOk` and `Game.DoodleJumpGame.HandlePlatformCollision`.
- `Collision.AfterLanding`: `Collision.ComboResetRule` and `Game.DoodleJumpGame.LandOnPlatforms`.
- `World.Attract`: `World.MagnetClosesGap`.
- `World.Pickup`: `World.PickupEffect` and `World.PickupKeepsOk`.
- `World.ItemStep`, folded by `World.SweepItems`: `World.SweepCollects`.
- `World.PruneItems`: `World.PruneItemsSpec` and `World.PruneItemsAppend`.
- `World.PrunePlatforms`: `World.PrunePlatformsSpec` and `World.PrunePlatformsAppend`.
- `World.PlatformStep`: `Game.DoodleJumpGame.GeneratePlatform`, with `Generator.MakePlatform` for the platform it appends.
- `World.PowerTick`: `World.PowerTickRules`.
- `World.Steer`: `World.SteerBounds`.
- `World.Fly`: `World.FlyRule`.
- `World.Move`: `World.MoveSidewaysIgnoresFlags` and `Game.DoodleJumpGame.MovePlayer`.
- `World.Backfilled`: `Game.DoodleJumpGame.Backfill` and `Game.DoodleJumpGame.FollowCamera`.
- `World.Spawn`: `World.SpawnRules` and `Game.DoodleJumpGame.SpawnItem`.
- `Effects.Emitted`: `Effects.EmittedAppend`.
- `Effects.LiveParticles`: `Effects.LiveParticlesSpec` and `Effects.LiveParticlesAppend`.
- `Effects.Aged` and `Effects.Survivors`: `Effects.AgedIsSurvivors` and `Effects.ParticlesExpire`.
- `Game.ItemsAndParticlesTick`, `Game.LandingTick`, `Game.CameraTick`, `Game.FallTick`, `Game.PlayTick`, `Game.CameraAndFallTick` and `Game.Tick`: the methods of the same step, whose contracts end in exactly these states.

## Model

| member | source | states |
|---|---|---|
| Scoring.CalculatePoints | public/game.js:1212-1231 | The points lie between the base and base + 50 for combo ≥ 0. The bonus reaches the cap of 50 exactly when combo ≥ 25. Below the cap the points are base + 2·combo. |
| Scoring.PointsTable | public/game.js:1213-1227 | The base is 10 for green, blue and broken, 50 for spring, 100 for rocket, 20 for moving, 15 for breakable. A first landing on a plain platform is worth 10, and a spring at combo 9 is worth 68. |
| Scoring.PointsGrowWithCombo | public/game.js:1229-1230 | Points are monotone in the combo and strictly increasing below the cap. |
| Generator.PickPlatformType | public/game.js:822-831 | The subtract-the-weight loop over the two tables picks exactly the type given by the cumulative bounds 0.3/0.5/0.8/0.9/0.95/0.98/1.0, falling back to green. |
| Generator.BoundsOfSlots | public/game.js:820 | The partial sums of the weights are 0, 0.3, 0.5, 0.8, 0.9, 0.95, 0.98 and 1.0. |
| Generator.TypeByBoundsRange | public/game.js:811-831 | No draw yields rocket or broken. For a draw in [0, 1): blue iff it is in [0.3, 0.5), spring iff in [0.9, 0.95), moving iff in [0.95, 0.98), breakable iff in [0.98, 1), green otherwise. |
| Generator.MakePlatform | public/game.js:833-841 | The type is the pick of the first draw. Health is 3 iff the platform is breakable, else 1. y = 550 − offsetY. vx is 0 unless the platform is moving, and then lies in [−1.5, 1.5). x lies in [0, 330). |
| Generator.ItemSlot | public/game.js:855 | Math.floor(r·6) is a valid slot of the 6-entry table, the integer part of r·6. |
| Generator.ItemSlots | public/game.js:854-855 | Slots 0–3 are coins, slot 4 is a shield and slot 5 a magnet, each iff r·6 lies in the corresponding unit interval. |
| Generator.MakeItem | public/game.js:857-865 | The type comes from the slot table. The item is uncollected, its y is in (cameraY − 300, cameraY − 100], and its x is in [0, 380). |
| Collision.CollisionIsSharedInterior | public/game.js:1135-1142 | The strict overlap test holds exactly when some point lies strictly inside both rectangles, so touching edges do not collide. |
| Collision.CollisionSymmetric | public/game.js:1135-1142 | checkCollision does not depend on the order of its arguments. |
| Collision.Hit | public/game.js:989-992 | A breakable platform loses exactly one unit of health and becomes broken iff the new health is ≤ 0. Any other platform is unchanged. |
| Collision.BreakableWear | public/game.js:989-992 | A fresh breakable platform has health 3 − n after n < 3 contacts, and is broken with health 0 from the third contact on. |
| Collision.BreakableContact | public/game.js:989-1037 | A breakable contact takes exactly one unit of health and never changes vy. If that breaks it, the player and run state are untouched: no snap, no score. Otherwise the player is snapped on top. |
| Collision.BrokenIsInert | public/game.js:1029-1035 | A broken platform produces no velocity change, no snap, no score and no particles. |
| Collision.BounceImpulse | public/game.js:1009-1037 | The bounce is −20 for spring, −13 for moving, −15 for green and blue, and vy is unchanged for a surviving breakable. The player lands on the platform's top, jumping, at the same x. |
| Collision.RocketOnlyFromRocketPlatform | public/game.js:1019-1027 | Only a rocket platform touches the rocket flag and timer. It switches the rocket on with 180 ticks. |
| Collision.ScoringNeedsLowCamera | public/game.js:1035-1043 | Because the test runs after the snap, a landing adds to the score iff the platform survives and cameraY > 46. The combo rises by exactly one in that case and is unchanged otherwise. |
| Collision.SnapScores | public/game.js:1036-1043 | The snap's scoring test reduced to the camera alone: it scores iff cameraY > 46. |
| Collision.SnapAppends | public/game.js:1035-1048 | The snap appends at most the one score popup to the particles the switch requested. |
| Collision.LandingPass | public/game.js:913-925 | The forEach handles platforms in list order and keeps the list's length. |
| Collision.PassHandlesEveryMatch | public/game.js:913-925 | Every platform of the list, not just the first, is handled: the k-th platform ends up as Hit of itself iff it passes the landing test against the player as the earlier handlers left it, and is unchanged otherwise. |
| Collision.PassLandedIffSomeMatch | public/game.js:913-925 | onPlatform is true iff at least one platform passed the landing test at its turn. |
| Collision.ComboResetRule | public/game.js:927-930 | After the pass the combo becomes 0 exactly when no platform matched and the player's vy is still > 0. Otherwise it is what the pass left. |
| Collision.BreakableRule | public/game.js:988-1033 | The platform a handler leaves behind is exactly Hit of the platform it got. |
| Collision.PassNeverScores | public/game.js:913-925 | With cameraY ≤ 0, a whole pass leaves score and combo as they were. |
| Collision.CollideKeepsX | public/game.js:987-1058 | A landing changes neither x, vx nor the direction. |
| Collision.PassKeepsX | public/game.js:913-925 | The same holds for a whole pass. |
| Collision.CollideKeepsPowerUps | public/game.js:987-1058 | A landing never changes the coins, shield, magnet or game-over flag. |
| Collision.SnapKeepsPowerUps | public/game.js:1035-1057 | The snap never changes the coins, shield, magnet or game-over flag. |
| Collision.PassKeepsPowerUps | public/game.js:913-925 | The same holds for a whole pass. |
| Collision.PassWithoutRocket | public/game.js:913-925 | Without a rocket platform in the list, a pass leaves the rocket flag and timer alone. |
| World.MovePlatform | public/game.js:1091-1100 | A moving platform advances by vx and reverses at x ≤ 0 or x ≥ 330. Nothing else about it changes. Other platforms are untouched. |
| World.MovePlatformKeepsOk | public/game.js:1090-1102 | Moving keeps the platform invariant: health in range and a moving platform within one step of its track, heading back when outside. |
| World.HitKeepsOk | public/game.js:989-992 | A contact keeps the platform invariant. |
| World.MadePlatformOk | public/game.js:833-841 | Every generated platform satisfies the platform invariant. |
| World.CollideKeepsOk | public/game.js:987-1058 | A landing keeps the platform invariant, the run-state invariant and the player's flags in step with the run state. |
| World.PassKeepsOk | public/game.js:913-925 | The whole pass keeps the same invariants for every platform. |
| World.RespondKeepsOk | public/game.js:988-1033 | The switch keeps the invariants. |
| World.SnapKeepsOk | public/game.js:1035-1057 | The snap keeps the invariants and the platform. |
| World.MagnetClosesGap | public/game.js:1188-1203 | An uncollected coin with dx² + dy² < 22500 closes exactly 10 percent of the gap to the player's centre on both axes. Every other item is unchanged. |
| World.Countdown | public/game.js:1062-1087 | An inactive timer is untouched. An active one drops by exactly 1 and stays active iff the new time is > 0. |
| World.CountdownKeepsTimerOk | public/game.js:1062-1087 | A timer never goes below 0 and is ≥ 1 while its flag is on. |
| World.TimerRunsOut | public/game.js:1060-1088 | A power-up started with d ticks stays on for exactly d ticks and then rests at 0, off. |
| World.PickupEffect | public/game.js:1144-1183 | The item becomes collected. A coin gives coins + 1 and score + 100. A shield sets its flag and time 300, a magnet its flag and time 600, as a reset rather than a sum. The rocket, combo and game-over are untouched. |
| World.PickupKeepsOk | public/game.js:1144-1183 | Collecting keeps the run-state invariant and the shield flag in step, and never lowers the score. |
| World.SweepItems | public/game.js:1105-1112 | The forEach of updateItems keeps the list's length. |
| World.SweepCollects | public/game.js:1105-1112 | After the sweep, each item is its bobbed self, collected iff it was already collected or it overlaps the player (strict AABB). The player does not move, score and coins only grow, and the rocket, combo and game-over are untouched. |
| World.SweepKeepsOk | public/game.js:1105-1112 | The sweep keeps the run-state invariant and the shield flag in step. |
| World.PruneItemsSpec | public/game.js:1114-1117 | The filter keeps exactly the uncollected items with y < cameraY + 700, and never lengthens the list. |
| World.PrunePlatformsSpec | public/game.js:943-947 | The filter keeps exactly the platforms with y < cameraY + 700 that are not broken with no health left. |
| World.PruneItemsAppend | public/game.js:1114-1117 | The item filter keeps the order: filtering a concatenation is concatenating the filtered parts. |
| World.PrunePlatformsAppend | public/game.js:943-947 | The platform filter keeps the order in the same way. |
| World.InitialLayout | public/game.js:791-808 | The layout holds the safe platform plus n generated ones. |
| World.InitialLayoutShape | public/game.js:791-808 | The first platform is the safe one at (165, 550). The k-th after it sits at y = 550 − 70k, is neither rocket nor broken, and keeps the platform invariant. |
| World.InitialWorldOk | public/game.js:791-808 | No initial platform is a rocket, and all keep the platform invariant. |
| World.InitialItems | public/game.js:846-851 | generateInitialItems makes n items, each from its own four draws. |
| World.InitialItemsShape | public/game.js:846-868 | Every initial item is uncollected and 100 to 300 above the camera. |
| World.MoveAll | public/game.js:1090-1102 | updateSpecialPlatforms applies the single-platform move to each element, keeping the order and length. |
| World.AttractAll | public/game.js:1188-1203 | activateMagnet applies the single-item pull to each element, keeping the order and length. |
| World.PowerTickRules | public/game.js:1060-1088 | Each timer runs its own countdown and nothing else changes. The player's flags clear with their power-up. The invariants are kept. The magnet is on afterwards only if it was on before. |
| World.SteerBounds | public/game.js:885-893 | The contract of `Steer`. The left key wins over the right one and sets vx −5 facing left. The right key alone sets vx 5 facing right. With neither, vx is multiplied by 0.9, so it never grows, and the direction stays. Nothing else of the player changes. |
| World.FlyRule | public/game.js:896-903 | While the rocket is on the player climbs exactly 10. Otherwise vy gains 0.5 and y moves by the new vy. x moves by vx. |
| World.Wrap | public/game.js:906-910 | A player left of −46 reappears at x = 400, and one right of 400 reappears at x = −46. After the wrap x lies in [−46, 400], a player already in that range is untouched, and only x changes. |
| World.MoveSidewaysIgnoresFlags | public/game.js:885-910 | The rocket and shield flags never affect the player's x, vx or direction after the move. |
| World.SpawnRules | public/game.js:950-952 | At 8 items nothing is drawn. Below 8, one draw decides. An item is added iff there are fewer than 8 and that draw is < 0.02. A new item is uncollected and 100 to 300 above the camera. The cap is never passed. |
| World.BackfillDroppedHighUp | public/game.js:936-947 | The backfilled platform at y = 550 is removed by the very next filter once cameraY ≤ −150. |
| World.Awards | public/game.js:1579-1584 | gameOver awards the 1000-points entry iff the score is ≥ 1000 and the 10-coins entry iff the coins are ≥ 10. |
| Effects.Sparks | public/game.js:1233-1246 | createParticles makes `count` sparks at (x, y) with life 30 and the colour. With draws in [0, 1), vx and vy lie in [−2, 2) and the size in [1, 4). |
| Effects.EmittedAppend | public/game.js:1233-1246 | Emitting two batches one after the other is emitting their concatenation, drawing in order. |
| Effects.Decay | public/game.js:1121-1130 | One particle's step: it moves by its old velocity, loses one life and gains 0.1 of vy, and a text popup's vy is then damped by 0.95. What repeated steps do is stated by Effects.DecayN, Effects.AgedIsSurvivors and Effects.ParticlesExpire. |
| Effects.DecayAll | public/game.js:1121-1130 | The step applied to every particle, in order. Its use over many ticks is stated by Effects.AgedIsSurvivors and Effects.ParticlesExpire. |
| Effects.LiveParticlesSpec | public/game.js:1132 | The filter `LiveParticles` keeps exactly the particles with life > 0. |
| Effects.LiveParticlesAppend | public/game.js:1132 | The filter keeps the order: filtering a concatenation is concatenating the filtered parts. |
| Effects.DecayAllAppend | public/game.js:1121-1130 | The step of each particle does not depend on the others: decaying a concatenation is concatenating the decayed parts. |
| Effects.DecayN | public/game.js:1121-1130 | After k steps a particle has exactly k less life and is still the same kind of particle. |
| Effects.SurvivorsTick | public/game.js:1120-1133 | One more call of updateParticles on the survivors of k ticks gives the survivors of k + 1 ticks. |
| Effects.SurvivorsNone | public/game.js:1120-1133 | When every particle has life left, zero ticks keep the whole list. |
| Effects.AgedIsSurvivors | public/game.js:1120-1133 | After k calls of updateParticles, a list of live particles holds exactly the particles that had more than k life, in their order, each aged by k steps. |
| Effects.SurvivorsExpire | public/game.js:1120-1133 | When no particle has more than k life, none survives k ticks. |
| Effects.ParticlesExpire | public/game.js:1120-1133 | Every particle expires: when no particle has more than m life, the list is empty after m calls of updateParticles and after every later call. |
| Game.DoodleJumpGame.constructor | public/game.js:18-74 | A fresh game: zeroed run state, player at (177, 500) facing right, camera 0, no particles. Platforms and items are exactly the initial layout and items drawn from the stream. The state is Valid. |
| Game.DoodleJumpGame.Random | public/game.js:822 | One Math.random() call reads the next stream value and advances the stream by one. |
| Game.DoodleJumpGame.CreateParticles | public/game.js:1233-1246 | The loop appends exactly the sparks of the draws it consumes, three per particle. |
| Game.DoodleJumpGame.ShowScorePopup | public/game.js:1248-1260 | Appends exactly one popup. |
| Game.DoodleJumpGame.ShowAchievement | public/game.js:1262-1295 | Appends the entry to the achievements; nothing else changes. |
| Game.DoodleJumpGame.UpdateParticles | public/game.js:1120-1133 | The list becomes the live particles of the decayed list. |
| Game.DoodleJumpGame.GeneratePlatform | public/game.js:810-844 | Pushes exactly MakePlatform of the next draws and consumes 2 draws, or 3 for a moving platform. |
| Game.DoodleJumpGame.GenerateInitialPlatforms | public/game.js:791-808 | The list becomes exactly the initial layout of 1 + 14 platforms. |
| Game.DoodleJumpGame.GenerateItem | public/game.js:853-868 | Pushes the item made from the next four draws. |
| Game.DoodleJumpGame.GenerateInitialItems | public/game.js:846-851 | The list becomes exactly the five initial items, after 20 draws. |
| Game.DoodleJumpGame.ActivateRocket | public/game.js:1205-1210 | Rocket on with 180 ticks, the player's flag set, and its achievement. |
| Game.DoodleJumpGame.ActivateMagnet | public/game.js:1188-1203 | The items become the pulled list. |
| Game.DoodleJumpGame.UpdatePowerUps | public/game.js:1060-1088 | The player and run state become the power tick of the old ones. The magnet pulls iff it is still on after its decrement. |
| Game.DoodleJumpGame.UpdateSpecialPlatforms | public/game.js:1090-1102 | The platforms become the moved list. |
| Game.DoodleJumpGame.CollectItem | public/game.js:1144-1186 | The new state is exactly the pickup of the i-th item, with its particles drawn from the stream. |
| Game.DoodleJumpGame.UpdateItem | public/game.js:1106-1111 | The effect of one forEach step: bob, then collect on overlap. |
| Game.DoodleJumpGame.UpdateItems | public/game.js:1104-1118 | The new state is the sweep of the old one, and the item list is its pruned result. |
| Game.DoodleJumpGame.RespondTo | public/game.js:988-1033 | The new state is exactly the switch's response to the i-th platform. |
| Game.DoodleJumpGame.ScoreLanding | public/game.js:1041-1055 | Adds the points and one to the combo, appends the popup, and awards the combo-5 or combo-10 entry. |
| Game.DoodleJumpGame.SnapOnto | public/game.js:1035-1057 | The new state is exactly the snap onto the i-th platform. |
| Game.DoodleJumpGame.HandlePlatformCollision | public/game.js:987-1058 | The new state is exactly Collide on the i-th platform. |
| Game.DoodleJumpGame.VisitPlatform | public/game.js:915-924 | The landing test result, and the new state of one forEach step. |
| Game.DoodleJumpGame.LandingLoop | public/game.js:913-925 | The new state and onPlatform are exactly the landing pass over the old list. |
| Game.DoodleJumpGame.LandOnPlatforms | public/game.js:913-930 | The new state is the pass (`AfterLanding`) followed by the combo reset, and the invariants are kept. |
| Game.DoodleJumpGame.Backfill | public/game.js:936-941 | Adds generatePlatform(0) iff the last platform's y > cameraY − 600. |
| Game.DoodleJumpGame.PruneBehind | public/game.js:943-947 | The platforms become the filtered list, keeping the invariants. |
| Game.DoodleJumpGame.SpawnItem | public/game.js:950-952 | The items and the stream position are exactly the item-spawn rule. |
| Game.DoodleJumpGame.FollowCamera | public/game.js:933-953 | The new state and the thrown flag are exactly CameraTick of the old state. The camera follows the player up only. With no climb nothing else changes. With a climb the state is the backfill, then the filter, then the spawn. It throws iff the camera moves with an empty list. At most 8 items stay live. |
| Game.DoodleJumpGame.GameOver | public/game.js:1571-1585 | The run ends, the combo becomes 0, and the results entries are awarded. |
| Game.DoodleJumpGame.CheckFall | public/game.js:956-973 | The new state is exactly FallTick of the old one. Without a fall past cameraY + 800 nothing changes. With a fall and an active shield, the player is put to cameraY + 500 with vy −15, both shield flags clear, 15 sparks are appended, and the run goes on. With a fall and no shield, the run ends with combo 0. |
| Game.DoodleJumpGame.ResetRun | public/game.js:1588-1607 | Score, coins, combo, highestPoint and the three flags are reset; the timers are not. The player is back at the spawn point with vy 0, not jumping, both flags cleared. The camera is 0 and the three lists are empty. |
| Game.DoodleJumpGame.RestartGame | public/game.js:1587-1610 | The resets, then exactly the initial layout and items. The result is Valid, and the three timers, vx and the direction are kept. |
| Game.DoodleJumpGame.MovePlayer | public/game.js:885-910 | The player becomes Steer, then Fly, then Wrap of the old one. |
| Game.PowerAndPlatformsTick | public/game.js:879-880 | The state after updatePowerUps and updateSpecialPlatforms. The item list keeps its length under the magnet's pull. |
| Game.PassStep | public/game.js:913-925 | One more platform handled by the loop extends its account of the state: the player, run state and handled platforms are the pass over the longer prefix, the rest of the list is as it was, and the particles and draws are the pass's effects in order. onPlatform becomes true iff this platform passed the landing test. |
| Game.DoodleJumpGame.TickPowerUpsAndPlatforms | public/game.js:879-880 | The new state is exactly PowerAndPlatformsTick of the old one. Keeps Valid, the number of items, the score and game-over. Only the player's flags change. The rocket is never started. |
| Game.DoodleJumpGame.TickItemsAndParticles | public/game.js:881-882 | The new state is exactly ItemsAndParticlesTick of the old one: the sweep with its particles and draws, the item filter, then one tick of every particle. Keeps Valid. The score never drops, and the rocket flag is unchanged. |
| Game.DoodleJumpGame.TickWorld | public/game.js:879-882 | The new state is exactly the items-and-particles tick of the power-and-platforms tick of the old one. Keeps Valid. Only the player's flags change. The score never drops. The rocket is never started. |
| Game.DoodleJumpGame.LandingStep | public/game.js:913-930 | The new state is exactly LandingTick of the old one: the pass over the platforms, then the combo reset. Keeps Valid. Score and game-over are unchanged. x, vx and direction are kept. |
| Game.DoodleJumpGame.Play | public/game.js:879-930 | The new state is exactly PlayTick of the old one: the world, the move of the player by the input, then the landings. Keeps Valid, and the run is not over. The score never drops, and the sideways move is exactly the input rule. |
| Game.DoodleJumpGame.ShieldRescue | public/game.js:959-969 | The player is put at cameraY + 500 with vy −15, both shield flags clear, 15 blue sparks from the player's centre are appended after 45 draws, and ShieldSaved is awarded. Nothing else changes. |
| Game.DoodleJumpGame.CameraAndFall | public/game.js:933-973 | The new state and the thrown flag are exactly CameraAndFallTick of the old state: the camera step, then the fall check unless the camera step threw. Keeps Valid. The camera never moves down, and the score, the rocket and the sideways position are unchanged. A throw leaves no platforms. A game over leaves no shield. |
| Game.DoodleJumpGame.Advance | public/game.js:878-973 | The new state and the thrown flag are exactly Tick of the old state. Keeps Valid. The camera never moves down, the score never drops, and the sideways move is exactly the input rule. A game over leaves no shield. |
| Game.DoodleJumpGame.Update | public/game.js:870-973 | A no-op when the run is over or the guard fails. Otherwise the new state and the thrown flag are exactly Tick of the old state, and the properties of Advance hold. No generated world ever starts the rocket. |

## Left out

- Rendering, sprite loading and drawing (`public/game.js:116-660`, `1297-1563`): canvas calls only.
- DOM and UI work: the server status, the achievement pop-up's DOM and `setTimeout`, `updateUI`, the final-score display, listeners and the jump buttons. All of it is browser I/O. The pressed arrow keys are the inputs `left` and `right` of `Update`.
- The socket.io client, its listeners and emits (including the `playerUpdate` emit at the end of `update`), and the `fetch` health check: network plumbing. `serv.js` and `vite.config.js` are not part of this model.
- `gameLoop` and `requestAnimationFrame`: the model takes one `update` call at a time.
- The guard `localState.connected && spritesLoaded` is the input `ready`. Those two flags are set by network and asset code.
- Floating point: positions and speeds are exact reals, so IEEE-754 rounding of the 0.5, 0.9, 0.95 and 0.1 factors is not modelled.
- The magnet's `Math.sqrt(dx*dx + dy*dy) < 150` is modelled as `dx*dx + dy*dy < 22500`. The two agree over the reals.
- The vertical bob `0.5 * Math.sin(animation)` of each item is an input delta per item (`bob`). The `animation` counters of the items and of the game are not kept. The fourth draw of `generateItem`, which only seeds that counter, is consumed but not stored.
- `getRandomColor` and the player's colour are cosmetic. The draws the constructor spends on it, and any draws made before, are folded into the starting stream position `start`.
- Achievements are an enumeration of the entries `showAchievement` pushes. Their text, lifetime and screen position are not kept.
- A particle's colour is kept for sparks only. The constant colour and size of a score popup, and the `isText` flag, are the `Popup` constructor.
- The enemies list: no code in the core populates it.
- `highestPoint` is only reset by `restartGame`; nothing else in the core reads or writes it.
- The safe initial platform has no `velocityX` in the source. It is a green platform, which never moves, so it is modelled with `vx = 0`.
- With an empty platform list, the camera step throws a TypeError in the source. `Update` returns `thrown` and stops the tick there instead of propagating an exception.
- The constructor places the player at (177, 500) from the canvas size. In the source the player is built at `public/game.js:42-44`, before `init()` sets the canvas to 400 × 600 at `public/game.js:669-670`. The model assumes the page's canvas already has that size when the object is built. With another initial size the spawn point would differ, and the model does not capture that.
- `createPlatformSprite` draws `Math.random()` once per texture cell (`public/game.js:362`). Its only caller, `loadPlatformSprites`, is never called, so those draws never reach the stream. The model leaves them out like the rest of the rendering.
