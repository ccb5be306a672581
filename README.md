# Batoman gameplay core in Dafny

This project models the gameplay rules of the Batoman side-scrolling platformer, a Phaser 3 game written in TypeScript. The engine is abstracted away:

- Keyboard state becomes a per-tick `Input` record of booleans.
- The physics body becomes plain fields: position and velocity as `real`, the "blocked" flags as parameters.
- Timers and the tick length are `int` milliseconds.
- Callbacks and emitted events (`health-changed`, `score-changed`, `died`, `enemy-died`, state-machine hooks) are recorded as traces on the objects that emit them.

One module per source file:

| module | file | contents |
|---|---|---|
| `Players` | `player.dfy` | The player controller. The `Player` class keeps the source's fields. `Player.State()` is a snapshot of them, and each method is proved equal to a pure function on snapshots (`DamagedHealth`, `Move`, `JumpStep`, `Fire`, `SelectAnimation`, `Tick`). The lemmas about those functions state what a sequence of ticks or hits does. |
| `Enemies` | `enemy.dfy` | Enemy defaults, unclamped damage with the death event, and the patrol rule. |
| `Levels` | `level_loader.dfy` | Level loading over an abstract tilemap record, plus the conversion of Tiled objects and property lists. |
| `Checkpoints` | `checkpoint_system.dfy` | The single-slot checkpoint tracker. |
| `StateMachines` | `state_machine.dfy` | The generic state machine, with its hooks as a call trace. |
| `ObjectPools` | `object_pool.dfy` | The LIFO object pool. |
| `Scenes` | `game_scene.dfy` | The level scene: creation, tick order, projectile culling, and the collision callbacks. |
| `Base` | `base.dfy` | `Option`, `Result`, the viewport size (1408 × 768, `src/config/gameConfig.ts:8-9`), and small arithmetic helpers. |

## Model

| member | source | states |
|---|---|---|
| Players.Spawned | src/objects/Player.ts:10-25 | A new player has health = maxHealth = 3, score 0, all timers 0, and is well formed. |
| Players.Player.constructor | src/objects/Player.ts:34-52 | The player starts in the `Spawned` state at the given position, unarmed, with no events. |
| Players.Player.SetProjectileGroup | src/objects/Player.ts:65-67 | Handing over the projectile group arms the weapon and changes nothing else. |
| Players.DamagedHealth | src/objects/Player.ts:81-82 | Health after a hit is never negative. It is zero exactly when the hit is at least the old health. A non-negative hit never raises it. |
| Players.DamageEvents | src/objects/Player.ts:83-94 | Every hit reports the new health first. `died` follows exactly when that health is ≤ 0. |
| Players.Player.TakeDamage | src/objects/Player.ts:81-95 | The health becomes `max(0, health - amount)` and the events of `DamageEvents` are appended. There is no invulnerability guard. Validity is kept for non-negative amounts. |
| Players.DamageAccumulates | src/objects/Player.ts:82 | A series of non-negative hits leaves `max(0, health - total)`, which stays within [0, starting health]. |
| Players.DiedOnEveryCallAtZero | src/objects/Player.ts:92-94 | At zero health, each further call emits `died` again: n calls give exactly n `died` events. |
| Players.HealthReportedEveryCall | src/objects/Player.ts:82-83 | A series of hits sends exactly one health notification per call, in call order, and the i-th carries the health left after the first i + 1 hits. |
| Players.Player.AddScore | src/objects/Player.ts:76-79 | The score rises by exactly the amount and the new score is reported. Nothing else changes. |
| Players.ScoreAccumulates | src/objects/Player.ts:76-79 | A series of `addScore` calls raises the score by their sum. |
| Players.HorizontalVelocity | src/objects/Player.ts:104-120 | Left wins and gives −220. Right alone gives 220. With no input the speed never grows and the sign never flips. |
| Players.Decay | src/objects/Player.ts:115-118 | One tick of friction gives at most 0.75·abs(vx). The result is 0 exactly when 0.75·abs(vx) < 5. A non-zero result keeps the sign and is at least 5. |
| Players.Player.HandleMovement | src/objects/Player.ts:104-120 | The new state is `Move` of the old one: velocity by `HorizontalVelocity` and facing by the input. |
| Players.GlideBound | src/objects/Player.ts:117 | After n ticks without input, the speed is bounded by n applications of the 0.75 factor. |
| Players.ComesToRest | src/objects/Player.ts:115-118 | From any speed the body allows (≤ 280), fourteen ticks without input bring the velocity to exactly 0. |
| Players.JumpStep | src/objects/Player.ts:134-149 | A jump happens when jump is pressed and the refreshed coyote timer is positive. It sets vy to −580 and the timer to 0; otherwise the timer is 100 on the ground and counts down in the air. A release then caps vy at −200. Nothing else changes. |
| Players.Player.HandleJump | src/objects/Player.ts:122-150 | The new state is `JumpStep` of the old one. |
| Players.NoJumpOnceExpired | src/objects/Player.ts:138-141 | In the air with an expired coyote timer, no tick jumps. |
| Players.OneJumpPerGraceWindow | src/objects/Player.ts:135-144 | Any run of airborne ticks contains at most one jump. |
| Players.Cooldown | src/objects/Player.ts:155 | The fire cooldown is never negative. It reaches 0 exactly when the tick is at least as long as the timer. |
| Players.Fire | src/objects/Player.ts:152-178 | Without a projectile group nothing happens. Without a release while charging, only the charge and cooldown advance. A release fires a nova exactly when the charge is ≥ 800; otherwise it fires a burst unless the cooldown is still running. A release always resets the charge, stops charging, sets the cooldown to 200 and starts the shoot animation. |
| Players.Player.HandleFire | src/objects/Player.ts:152-178 | The new state and the fired projectile are those of `Fire`. |
| Players.Player.FirePlasmaBurst | src/objects/Player.ts:188-205 | No projectile while the cooldown runs. Otherwise a burst 20 ahead of the player, moving at 600 in the facing direction. |
| Players.Player.FireNovaBlast | src/objects/Player.ts:207-223 | Always a nova 20 ahead of the player, moving at 380 in the facing direction. |
| Players.Player.PlayShootAnim | src/objects/Player.ts:180-182 | Marks the player as shooting with the shoot animation. Nothing else changes. |
| Players.Player.OnShootAnimationComplete | src/objects/Player.ts:183-185 | When the shoot animation completes, shooting is cleared. |
| Players.ChargeAccumulates | src/objects/Player.ts:162-165 | Holding fire while charging adds up the tick lengths into the charge timer. |
| Players.NovaAfterLongHold | src/objects/Player.ts:167-172 | Releasing after a hold that started at zero fires a nova exactly when the held time is ≥ 800. |
| Players.SelectAnimation | src/objects/Player.ts:225-254 | A playing shot animation is never interrupted, and the shoot animation is only kept while shooting. |
| Players.SelectionFollowsPriority | src/objects/Player.ts:233-253 | Unless shooting, the selected animation is the first wanted one in the order charge (charge ≥ 400), jump (airborne, vy < 0), fall, run (abs(vx) > 60), walk (abs(vx) > 5), idle. |
| Players.Player.UpdateAnimation | src/objects/Player.ts:225-254 | The animation becomes `SelectAnimation` of the old state. Nothing else changes. |
| Players.Tick | src/objects/Player.ts:97-102 | One update keeps the player well formed and leaves health and score alone. Left input gives −220, facing left. A fired projectile comes with the shoot animation and flies the way the player faces. |
| Players.Player.Update | src/objects/Player.ts:97-102 | Movement, jump, fire and animation run in that order. The result equals `Tick`, and validity is preserved. |
| Enemies.Configure | src/objects/Enemy.ts:31-37 | Each absent setting takes its default: health 2, score 100, speed 80, patrol, distance 120. Each given setting is kept. maxHealth equals the initial health. |
| Enemies.Enemy.constructor | src/objects/Enemy.ts:25-42 | The settings are `Configure(config)`, startX is the spawn x, and patrolDir is 1. |
| Enemies.Enemy.TakeDamage | src/objects/Enemy.ts:47-62 | Health drops by exactly the amount, with no clamp. The result is true exactly when health ≤ 0, and only then is the enemy destroyed with `enemy-died` recorded. |
| Enemies.Enemy.OnDeath | src/objects/Enemy.ts:64-68 | `enemy-died` is emitted carrying the enemy itself, then the enemy is destroyed. |
| Enemies.LethalHit | src/objects/Enemy.ts:47-61 | k hits of d leave health − k·d. The enemy is dead exactly when k·d ≥ health. |
| Enemies.NextPatrolDir | src/objects/Enemy.ts:81-87 | Past the right bound or blocked right gives −1; otherwise past the left bound or blocked left gives 1; otherwise the direction is kept. It stays in {−1, 1}. |
| Enemies.PatrolStep | src/objects/Enemy.ts:76-88 | The velocity is speed·patrolDir using the direction from before the turn, and facing left ⇔ patrolDir < 0. |
| Enemies.Enemy.UpdatePatrol | src/objects/Enemy.ts:76-88 | The motion becomes `PatrolStep` of the old motion. Health, position and events are unchanged. |
| Enemies.EnemyTick | src/objects/Enemy.ts:70-74 | A stationary enemy does not change. The direction stays in {−1, 1}. |
| Enemies.Enemy.Update | src/objects/Enemy.ts:70-74 | The motion becomes `EnemyTick` of the old motion, and the patrol-direction invariant is kept. |
| Enemies.TurnsBackPastBounds | src/objects/Enemy.ts:82-87 | An enemy found past a patrol bound moves back toward its start on the next tick. |
| Levels.MapProperties | src/systems/LevelLoader.ts:84-86 | The keys are exactly the given names. A name's value is that of its last entry. |
| Levels.MapPropertiesLastWins | src/systems/LevelLoader.ts:84-86 | Every name maps to the value of a final entry carrying that name. |
| Levels.ToSpawn | src/systems/LevelLoader.ts:72-81 | The type is type ?? name ?? "enemy", taken unchecked. x and y default to 0, width and height to 32. The properties are keyed by the names. |
| Levels.ParseSpawns | src/systems/LevelLoader.ts:71-82 | Exactly one spawn per object, in layer order. |
| Levels.SpawnRoundTrip | src/systems/LevelLoader.ts:71-86 | A spawn written out as a Tiled object with every field present reads back unchanged. |
| Levels.Load | src/systems/LevelLoader.ts:26-69 | A missing tileset fails before any layer is built. A missing platforms layer fails after at most the background layer. Success happens exactly when both are present. Layers are built in the order background, platforms, hazards, foreground. The hazard layer is absent exactly when its layer is. A missing spawns layer gives no spawns. The world size is the map's pixel size. |
| Checkpoints.SpawnPointOf | src/systems/CheckpointSystem.ts:8-10 | The recorded checkpoint if there is one, else the given level start. |
| Checkpoints.CheckpointSystem.constructor | src/systems/CheckpointSystem.ts:2 | No checkpoint is recorded initially. |
| Checkpoints.CheckpointSystem.Activate | src/systems/CheckpointSystem.ts:4-6 | The slot is overwritten with the point, unconditionally. |
| Checkpoints.CheckpointSystem.GetSpawnPoint | src/systems/CheckpointSystem.ts:8-10 | A pure read. It returns the recorded point when there is one (whatever start is passed), else the start. |
| Checkpoints.CheckpointSystem.Reset | src/systems/CheckpointSystem.ts:12-14 | The slot is emptied, so the next spawn point is the level start. |
| Checkpoints.LastOperationWins | src/systems/CheckpointSystem.ts:4-14 | After any series of activations and resets, the slot depends only on the last operation. |
| Checkpoints.ReactivationIsOverwrite | src/systems/CheckpointSystem.ts:5 | Activating A, B, A leaves A. Activating a point twice equals activating it once. |
| StateMachines.StateMachine.constructor | src/systems/StateMachine.ts:13-17 | The machine starts in the initial state, and only the initial state's onEnter is called, at most once. |
| StateMachines.TransitionCalls | src/systems/StateMachine.ts:19-24 | A transition to the current state calls nothing. Otherwise it calls only the old state's onExit and the new state's onEnter, each exactly when declared, with the exit first. |
| StateMachines.StateMachine.Transition | src/systems/StateMachine.ts:19-24 | The machine ends in the new state, and the hook trace grows by `TransitionCalls`. |
| StateMachines.StateMachine.Update | src/systems/StateMachine.ts:26-28 | Only the current state's onUpdate is called, with the tick length, when it exists. The state is unchanged. |
| StateMachines.StateMachine.State | src/systems/StateMachine.ts:30 | The `state` getter is a read of the current state; nothing changes. |
| StateMachines.StateMachine.Is | src/systems/StateMachine.ts:30-31 | `is(s)` holds exactly when the state is s. |
| StateMachines.RunIsBracketed | src/systems/StateMachine.ts:19-24 | With every hook declared, any series of transitions exits only the state that is current, and ends in the last target. |
| ObjectPools.ObjectPool.constructor | src/systems/ObjectPool.ts:4-14 | The pool holds initialSize new objects, all inactive and invisible. |
| ObjectPools.ObjectPool.Acquire | src/systems/ObjectPool.ts:16-19 | The result is active and visible. It is the most recently pushed object, popped from the pool, or a new one when the pool is empty (the pool stays empty). No other pooled object changes. |
| ObjectPools.ObjectPool.Release | src/systems/ObjectPool.ts:21-25 | The object is reset once, deactivated, hidden and pushed. There is no duplicate check. |
| ObjectPools.ObjectPool.Size | src/systems/ObjectPool.ts:27 | The number of available objects, read without changing state. |
| ObjectPools.ReleaseTwiceAcquireTwice | src/systems/ObjectPool.ts:21-25 | Releasing an object twice puts it in the pool twice: the next two acquisitions both return it, and the pool is back where it was. |
| Scenes.GameScene.constructor | src/scenes/GameScene.ts:104-160 | The player spawns at (100, 768 − 100) and is armed. Three distinct live enemies are created at x = 600, 1200, 1800 and y = 768 − 80, with health 2, speed 70, score 100 and distance 120. There are no projectiles. |
| Scenes.GameScene.Update | src/scenes/GameScene.ts:39-48 | A tick updates the player (`Tick`), then each enemy (`EnemyTick`), then runs the culling loop as written (`ForEachCull`) over the projectiles, including one fired this tick. The enemy group stays valid. |
| Scenes.GameScene.UpdateEnemies | src/scenes/GameScene.ts:42-44 | Every enemy moves by `EnemyTick` with its own blocked flags. Nothing else about the enemies changes. |
| Scenes.Cull | src/scenes/GameScene.ts:162-174 | Culling keeps only projectiles within [scrollX − 100, scrollX + 1408 + 100], and never more than it was given. |
| Scenes.CullIsFilter | src/scenes/GameScene.ts:166-172 | Culling removes exactly the off-screen projectiles: each on-screen one survives as often as it occurs, and no off-screen one survives. |
| Scenes.GameScene.CleanupProjectiles | src/scenes/GameScene.ts:162-174 | The loop removes off-screen projectiles in place while its index advances past each removal, and leaves exactly `ForEachCull` of the old list. |
| Scenes.ForEachCull | src/scenes/GameScene.ts:164-173 | The loop as written never gains a projectile, never removes an on-screen one, and removes only off-screen ones. From index k on it equals `Sweep`, the left-to-right reading in which an off-screen projectile is removed unless the one just before it was removed. |
| Scenes.ForEachCullIsSweep | src/scenes/GameScene.ts:164-173 | A whole pass of the loop as written equals `Sweep` over the list the tick started with. |
| Scenes.ForEachCullKeepsOrder | src/scenes/GameScene.ts:164-173 | Both the loop as written and the intended culling leave the survivors as a subsequence of the list, in their original order. |
| Scenes.ForEachCullRemovesHalf | src/scenes/GameScene.ts:164-173 | The loop as written removes at least half of the off-screen projectiles (rounded up) and at most all of them, so a tick with any off-screen projectile shortens the list. |
| Scenes.ForEachCullIsCullExactly | src/scenes/GameScene.ts:164-173 | The loop as written gives the same list as the intended culling exactly when no two off-screen projectiles are neighbours in the list. |
| Scenes.ForEachCullBetween | src/scenes/GameScene.ts:164-173 | Every projectile the intended culling keeps, the loop as written keeps too, and it keeps nothing the list did not hold. |
| Scenes.ForEachCullSkipsNeighbour | src/scenes/GameScene.ts:164-173 | Two adjacent off-screen projectiles: the loop as written destroys only the first, while `Cull` removes both. |
| Scenes.ProjectileDamage | src/scenes/GameScene.ts:197 | Damage is positive. It is 3 exactly for a nova, and 1 for anything else. |
| Scenes.HitsNeeded | src/scenes/GameScene.ts:197-199 | One nova kills an enemy of health ≤ 3. One burst kills exactly when health ≤ 1. A default enemy survives one burst and dies from two. |
| Scenes.GameScene.OnProjectileHitsPlatform | src/scenes/GameScene.ts:186-190 | The projectile is removed. Nothing else changes. |
| Scenes.GameScene.OnProjectileHitsEnemy | src/scenes/GameScene.ts:193-201 | The projectile is removed and the enemy loses its damage, without moving. The enemy records `enemy-died` exactly when that kills it. If that kills it, the scene's `enemy-died` listener (`src/scenes/GameScene.ts:146-148`) raises the player's score by exactly the enemy's scoreValue and the enemy leaves the group; otherwise player and group are unchanged. |
| Scenes.GameScene.OnPlayerTouchesEnemy | src/scenes/GameScene.ts:204-208 | Each reported contact is a `takeDamage(1)` on the player. |

## Left out

- Rendering, tweens (the damage flicker), depth, scale and animation playback, including `playAnim`'s restart check. Only the selected animation key is kept.
- Phaser input polling (`JustDown`, `JustUp`, `isDown`). These become the `Input` booleans of a tick.
- The arcade physics step: gravity, the velocity clamps of 280 and 800, collision resolution and integration of positions. Velocities are set as the code sets them. "On ground" and "blocked" are parameters. `ComesToRest` assumes the 280 clamp for its starting speed.
- Floating-point rounding: velocities and positions are exact reals.
- Camera follow, parallax, world bounds, the background and the placeholder platform layout. The camera's scrollX is a parameter of the tick.
- `onPlayerDied`: stopping the HUD scene and the delayed switch to the menu are engine scene control. The model keeps the `died` events that trigger it.
- HUD callbacks are always treated as subscribed: every health and score change is recorded as an event.
- The `if (bullet)` / `if (blast)` checks on the engine's `create` result: creation is taken to succeed.
- `takeDamage`'s default amount of 1: every call passes the amount explicitly.
- Enemies.Enemy.TakeDamage: requires a live enemy. The engine only reports overlaps of bodies still in the scene, and the source would touch the destroyed object's scene.
- Levels.Load: `addTilesetImage` and `createLayer` are modelled as the presence of the tileset name and the layer name in an abstract map. Tile collision flags are kept as the property names each layer collides on, with the classification left to the engine. An error is returned as a `Result` instead of thrown.
- Levels.ToSpawn: the spawn type is kept as any string, as the unchecked cast in the source allows. Property values are booleans, numbers or strings.
- ObjectPools: the caller's factory and reset hooks are modelled as creating a fresh `Item` and as counting resets on the item.
- The player's starting y is taken from the scene (768 − 100 = 668, `src/scenes/GameScene.ts:105`), not from the level data file. The level data, UI, menu, preload and boot scenes are not part of this model.

## Findings

| source | as written | input that shows it | evidently intended | confidence | as-written member | corrected member |
|---|---|---|---|---|---|---|
| src/scenes/GameScene.ts:164-173 | `cleanupProjectiles` iterates `getChildren()` with `forEach` and calls `destroy()` inside. `getChildren()` is the group's live entry array, and destroying a child splices it out of that same array, so the element after each destroyed projectile is skipped that tick. | Two projectiles at x = −500 and x = −520 with scrollX = 0: only the first is destroyed. | Every projectile outside the window is destroyed in the same tick. | not executed; medium (depends on Phaser's group removing destroyed children by splicing the array being iterated) | Scenes.ForEachCullSkipsNeighbour | Scenes.CullIsFilter |

The scene's tick (`Scenes.GameScene.Update`, `Scenes.GameScene.CleanupProjectiles`) follows the loop as written, `Scenes.ForEachCull`. The corrected culling is `Scenes.Cull`, and `Scenes.ForEachCullBetween` relates the two: the loop as written keeps everything `Cull` keeps, plus possibly some off-screen projectiles until a later tick. `Scenes.ForEachCullRemovesHalf` bounds those: at least half of the off-screen projectiles go each tick. `Scenes.ForEachCullIsCullExactly` says when the two agree: exactly when no two off-screen projectiles are neighbours.
