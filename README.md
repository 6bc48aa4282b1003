# Player input and firing step of a Phaser prototype

This project models the per-frame logic of an early prototype of a 2D
shooter built on the Phaser engine with Matter physics (`src/main.ts`).
The scene keeps a player body, a `Gun` record and the bullets it has
fired. Every frame, `update` turns the four movement keys (W, S, A, D) into a
direction vector with `cursorKeysToVec2`, sets the player's velocity to ten
times that direction, and, while SPACE is held, spawns one bullet 70 units
to the right of the player, moving at (20, 0) with alpha 1 and a fade-out
tween (delay 400 ms, duration 200 ms). `create` places the player at
(100, 0) and builds a gun `{isFiring: false, lastFired: 0}` that nothing
reads or writes afterwards.

Files:

- `input.dfy` (module `Input`): vectors, key states, the direction
  specification `Direction` and the imperative `CursorKeysToVec2` that
  overwrites x and y in the source's order.
- `scene.dfy` (module `Scene`): the `Gun`, `Bullet` and `WorldState`
  records, the pure step `StepState`, a `Frame` (where the engine left
  the player, plus the keys held) and the fold `Run` over frames, lemmas
  about them, and the `World` class. Its constructor is `create`, its
  method `SpawnBullet` is `spawnBullet` and appends exactly
  `SpawnedBullet(position)`, and its method `Step` is `update` and is
  proved to produce exactly the state `StepState` describes.

Key states are passed into `Step` as booleans (a key's `isDown`). The
constants of the code (-1, 0, 1, 10, 20, 70, 100, 400, 200) are integers,
and the model uses `int` throughout, positions included.

Between two calls of `update` the engine integrates velocities into
positions. The model does not compute that motion; instead each `Frame`
carries the player position the engine supplies, and `update` reads it
when it places a bullet. The bullet sequence holds every bullet spawned,
in order, as it was when spawned.

`src/main.ts` has no rate limit on firing, no melee weapon, no enemies and
no collision handling, and its `Gun` record is never used after `create`;
the model has none of these either.

## Model

| member | source | states |
|---|---|---|
| `Input.Axis` | src/main.ts:13-16 | one axis is -1 exactly when its negative key is down, 1 exactly when only its positive key is down, 0 exactly when neither is; always in {-1, 0, 1} |
| `Input.Direction` | src/main.ts:11-18 | both components of the direction are in {-1, 0, 1} |
| `Input.CursorKeysToVec2` | src/main.ts:11-18 | starting from (0, 0) and overwriting x for right then left and y for down then up yields exactly `Direction` |
| `Input.IdleIsZero` | src/main.ts:12-17 | the direction is (0, 0) if and only if no movement key is down |
| `Input.Precedence` | src/main.ts:13-16 | left gives x = -1 even with right down, up gives y = -1 even with down down; right alone gives 1, down alone gives 1 |
| `Input.AxesIndependent` | src/main.ts:13-16 | x depends only on left/right, y only on up/down |
| `Scene.StepState` | src/main.ts:91-103 | one `update` adds one bullet when fire is held and none otherwise, after all earlier bullets |
| `Scene.Run` | src/main.ts:91-103 | frames in order, each one the engine placing the player and then `update`; the gun is never changed, and after the last frame the player is where the engine put it, since `update` does not write the position |
| `Scene.FireCount` | src/main.ts:98 | the counter of frames with fire held that the bullet-count lemmas use (never more than the frames) |
| `Scene.StepVelocity` | src/main.ts:95-96 | after a step the player's velocity is ten times the direction, component-wise |
| `Scene.StepFire` | src/main.ts:76-81 | with fire held a step appends exactly one bullet at (x + 70, y) with velocity (20, 0), alpha 1, fade 400/200, keeping the earlier bullets; without fire the bullets are unchanged |
| `Scene.StepKeeps` | src/main.ts:91-103 | `update` writes neither the player's position nor the gun |
| `Scene.RunBullets` | src/main.ts:98-102 | over any frames the earlier bullets are kept and exactly `Spawns(frames)` is appended: one bullet per frame with fire held, in frame order, at that frame's muzzle |
| `Scene.SpawnsCount` | src/main.ts:98-102 | the number of bullets spawned is the number of frames with fire held |
| `Scene.SpawnedAt` | src/main.ts:76-86 | every spawned bullet comes from some frame with fire held and starts 70 units right of where the player was in that frame, with velocity (20, 0), alpha 1 and the 400/200 fade |
| `Scene.AllFireCount` | src/main.ts:98 | when fire is held on every frame, all frames are firing frames |
| `Scene.NoRateLimit` | src/main.ts:98-102 | holding fire for n consecutive frames adds exactly n bullets |
| `Scene.TwoFiringFrames` | src/main.ts:99-101 | two firing frames from `create` give two bullets, each 70 units right of the player position of its own frame |
| `Scene.GunNeverChanges` | src/main.ts:62-65 | after `create`, whatever frames follow, the gun stays `{isFiring: false, lastFired: 0}` |
| `Scene.RunVelocity` | src/main.ts:95-96 | after a non-empty run the velocity is ten times the direction of the last frame's keys, whatever came before |
| `Scene.World.constructor` | src/main.ts:44-74 | the new world's state is `Initial`: player at (100, 0), gun `{false, 0}`, no bullets |
| `Scene.World.SpawnBullet` | src/main.ts:76-89 | appends `SpawnedBullet(position)` and changes nothing else |
| `Scene.World.Step` | src/main.ts:91-103 | the new state is `StepState` of the old state: velocity ten times the direction, one bullet appended at the muzzle exactly when fire is held, position and gun unchanged |

## Left out

- Phaser game and scene bootstrapping, the config block, canvas size and camera scroll (src/main.ts:54-55, 105-124): engine setup with no logic.
- Rectangle and graphics creation and attaching Matter bodies (src/main.ts:58-59, 77-78): foreign engine calls; a body is a plain record of position and velocity.
- The player's initial velocity is not set by `create`; the model takes it as (0, 0), the engine's default for a new body.
- The bullet fade-out tween and its `destroy` callback (src/main.ts:82-88): engine-driven animation; only the delay and duration constants are recorded on each bullet, and bullets are never removed, so the bullet sequence is every bullet spawned rather than the bullets still alive.
- Alpha is a floating-point opacity in the engine; only its initial value 1 is modelled, as an integer.
- Positions are floating-point numbers in the engine, since integration moves bodies by fractional amounts; the model uses integers, so it does not cover non-integer player positions (the only arithmetic on them is the exact `+ 70`).
- Physics integration: how the engine moves the player and the bullets between frames is not computed. `Run` takes the player's position in each frame as an input from the engine and does not track bullet motion after spawning; the `World` class has no operation for the engine's move and `World.Step` models only the `update` call.
- Keyboard key registration (src/main.ts:46-52): keys are plain booleans passed into each step.
- The `State` object stored in `scene.data` (src/main.ts:38-42, 67-73, 93): modelled as the fields of `World`; the keys are step parameters instead.
- The `l` logging helper and the hot-module-reload block (src/main.ts:3-5, 126-131): I/O and tooling.
