# A verified model of a macroquad arcade loop

The program is a small realtime shooter written in Rust on macroquad. A green player square moves with the arrow keys and fires yellow projectiles upward with Space. Green enemy squares appear at the top edge once a second and fall. A projectile that comes close enough to an enemy destroys both and scores a point. An enemy that falls below the bottom edge ends the game. In Game Over, holding Enter starts a new game.

All of the logic is in the loop of `main` in `src/main.rs`. The model lifts it into the following modules:

- `Geometry`: the plane vectors the game uses over the reals: sums, scalar products, the scalar offset `v + k`, squared length, and `normalize_or_zero`.
- `Entities`: the `Rectangle` value shared by player, enemies and projectiles, with `move_rectangle`, `setup_player`, `setup_enemy` and `spawn_projectile`.
- `Collision`: the distance test between a projectile and an enemy, and the score a frame earns. The score is stated as the number of hitting (enemy, projectile) index pairs.
- `Retention`: `Vec::retain(|r| !r.destroy)`, as a specification function `Live` and as a one-pass method.
- `Simulation`: the loop's locals as a `State` value, and each phase of a frame as a `State -> State` function:
  - spawn countdown;
  - key direction and velocity;
  - fire;
  - movement;
  - the enemy loop;
  - cleanup;
  - the restart branch.
  `StepSpec` and `FrameSpec` compose the phases.
- `Game`: class `GameState`, whose fields are the loop's mutable locals (`player_rect`, `enemy_vec`, `projectile_vec`, `score`, `spawn_timer`, `game_over`). Its methods perform one frame imperatively, with the same branches, in-place updates and nested loops as the source. `Frame`, `RestartBranch`, `Step`, `CountDownSpawn`, `SteerPlayer`, `ResolveEnemies` and `Sweep` are each proved to produce exactly the result of their phase function (`FrameSpec`, `RestartSpec`, `StepSpec`, `SpawnPhase`, `SteerPhase`, `CollidePhase` on the moved enemies, `CleanupPhase`). `MovePlayerAndProjectiles` is proved against the snapshot with the player and the projectiles moved, the part of `MovePhase` before the enemy loop. The loop helpers `ResolveAll`, `ResolveOneEnemy` and `TestProjectiles` state their exact effect element by element.
- `Properties`: facts about whole frames, and small worked scenarios.

Everything the loop asks the platform for is a field of `Simulation.Input`: the frame time, the screen size, the five held keys, the Space press and the random spawn abscissa. Coordinates, speeds and times are reals. The source's test `(p - e).length() < size` becomes `0 < size && |p - e|² < size²`; `Collision.HitIsLengthTest` proves the two tests agree whenever the length is the true distance.

`normalize_or_zero` needs a square root. The model takes the length of the key direction from the caller: 0, 1, or the platform's square root of two, which `Frame` and `Step` receive as a positive parameter `rootTwo`. Whatever its value, the velocity is zero exactly when no key is held, follows the keys' signs and, on a diagonal, has components of equal magnitude. Under the hypothesis `rootTwo * rootTwo == 2`, the velocity is also proved to have unit length whenever a direction key is held.

The enemy loop in the source moves enemy `i` and then tests it against every projectile. `Game.GameState.ResolveOneEnemy` keeps that interleaving. The specification `Simulation.CollidePhase` instead runs on positions already moved. The two agree because the loop only reads positions it has already moved.

A restart leaves `spawn_timer` as it was (`src/main.rs:84-90`); `Simulation.RestartSpec` keeps the timer.

## Model

| member | source | states |
|---|---|---|
| Geometry.Normalize | src/main.rs:119 | `normalize_or_zero` maps the zero vector to zero and, when its length is one, a vector to itself |
| Entities.Move | src/main.rs:16-18 | the position advances by velocity × speed × dt; velocity, colour, speed, size and the destroy mark are unchanged |
| Entities.MoveComposes | src/main.rs:16-18 | two moves of `a` and `b` seconds equal one move of `a + b` seconds |
| Entities.MoveZeroTime | src/main.rs:16-18 | a move of zero seconds leaves the rectangle as it was |
| Entities.SetupPlayer | src/main.rs:25-34 | the player is horizontally centred (x plus half its size is half the width), 100 above the bottom edge, at rest, unmarked, speed 250, size 60 |
| Entities.SetupEnemy | src/main.rs:36-46 | an enemy starts at (x, 0), heading (0, 1), speed 200, size 30, unmarked |
| Entities.SpawnProjectile | src/main.rs:48-57 | a projectile starts at the player's corner plus a third of its size in both coordinates, heading (0, -1), speed 400, size 25, unmarked |
| Entities.ProjectileStartsInsidePlayer | src/main.rs:48-57 | for a player of positive size the projectile starts strictly inside the player's square |
| Retention.Live | src/main.rs:169-170 | the swept collection has no marked rectangle and is no longer than the original |
| Retention.LiveMultiset | src/main.rs:169-170 | every unmarked rectangle survives as often as it occurred, and no marked one survives |
| Retention.LiveMembers | src/main.rs:169-170 | a rectangle survives the sweep exactly when it was present and unmarked |
| Retention.LiveKeepsOrder | src/main.rs:169-170 | the survivors sit at strictly increasing original positions that cover every unmarked position: the relative order is kept |
| Retention.LiveOfSettled | src/main.rs:169-170 | sweeping a collection with nothing marked leaves it unchanged |
| Retention.LiveIdempotent | src/main.rs:169-170 | sweeping twice is sweeping once |
| Retention.Retain | src/main.rs:169 | the one-pass filter returns exactly `Live` of its input |
| Collision.Hit | src/main.rs:139 | a hit needs a positive enemy size; the test is the squared form of distance below the enemy's size |
| Collision.HitIsLengthTest | src/main.rs:139 | given the true distance between the positions, `Hit` holds exactly when that distance is below the enemy's size, as `length() < size` tests |
| Collision.HitCount | src/main.rs:138-144 | the hits one enemy takes number at most the projectiles, and are zero exactly when no projectile is close enough |
| Collision.PairCount | src/main.rs:135-144 | the frame's hits are zero exactly when no enemy is hit |
| Collision.HitCountIsRowSize | src/main.rs:138-144 | the inner loop's count is the number of indices of projectiles close to the enemy |
| Collision.PairCountIsHitPairs | src/main.rs:135-144 | the nested loop's count is the number of hitting (enemy, projectile) index pairs |
| Simulation.Initial | src/main.rs:62-70 | the first state has the set-up player, no enemies or projectiles, score 0, timer 1.0, Playing |
| Simulation.SpawnPhase | src/main.rs:100-104 | when the timer minus dt is at most zero, exactly one enemy is appended at (x, 0) and the timer is exactly 1.0; otherwise no enemy is added and dt is subtracted; with dt ≥ 0 a timer in (0, 1] stays in (0, 1]; nothing else changes |
| Simulation.Direction | src/main.rs:108-118 | x is 1 iff Right, -1 iff Left without Right, 0 iff neither; y is -1 iff Up, 1 iff Down without Up, 0 iff neither |
| Simulation.DirectionLength | src/main.rs:119 | the length of an axis direction is 1 and of no direction 0 |
| Simulation.DirectionLengthIsLength | src/main.rs:119 | given the platform's square root of two, `DirectionLength` is the direction's Euclidean length |
| Simulation.DiagonalIsUnit | src/main.rs:119 | a diagonal direction divided by the square root of two has unit length |
| Simulation.Velocity | src/main.rs:108-119 | the velocity is zero exactly when no direction key is held; along an axis it is the direction itself; on a diagonal its two components have equal magnitude |
| Simulation.VelocityIsUnit | src/main.rs:108-119 | with any direction key held, the velocity has unit length, diagonals included |
| Simulation.VelocitySigns | src/main.rs:108-119 | the velocity's x is positive iff Right, negative iff Left without Right; its y is negative iff Up, positive iff Down without Up |
| Simulation.SteerPhase | src/main.rs:119 | only the player's velocity changes, to `Velocity` of the held keys |
| Simulation.FirePhase | src/main.rs:122-124 | a press appends exactly one projectile, `SpawnProjectile` of the player, after the existing ones; no press adds none; nothing else changes |
| Simulation.MoveAll | src/main.rs:131-133 | every rectangle of the collection is moved, and the length is kept |
| Simulation.MovePhase | src/main.rs:129-136 | the player, every projectile and every enemy are moved; score, timer and mode are unchanged |
| Simulation.Crossed | src/main.rs:150 | some enemy of the collection is below the bottom edge, stated both by index and by membership |
| Simulation.MarkEnemy | src/main.rs:138-153 | only the destroy mark changes, and it is set exactly when the enemy was marked, a projectile hits it, or it is below the edge |
| Simulation.MarkProjectile | src/main.rs:138-144 | only the destroy mark changes, and it is set exactly when the projectile was marked or hits some enemy |
| Simulation.CollidePhase | src/main.rs:135-154 | the score grows by exactly the number of hitting pairs; both members of every hitting pair are marked; every enemy below the bottom edge is marked; the game is over iff it was or some enemy is below the edge; each enemy and projectile is its old record with only the destroy mark updated, set for nothing else; the player and the timer are unchanged |
| Simulation.CleanupPhase | src/main.rs:169-170 | both collections become `Live` of the old ones, so order and multiplicity follow from `LiveKeepsOrder` and `LiveMultiset`; afterwards nothing is marked, and exactly the unmarked enemies and projectiles remain; the rest of the state is unchanged |
| Simulation.StepSpec | src/main.rs:95-172 | after a Playing frame: the score grew by the post-move hitting pairs; the game is over iff it was or a moved enemy crossed the bottom edge; nothing is marked; no surviving enemy is below the edge; the timer range is kept; the player moved with its new velocity |
| Simulation.RestartSpec | src/main.rs:84-92 | with Enter, the state is the initial one except that the timer keeps its value; without Enter, the state is unchanged |
| Simulation.FrameSpec | src/main.rs:72-173 | in Game Over without Enter nothing changes; with Enter a new game starts with a fresh player, empty collections, score 0 and the old timer; a Playing frame never lowers the score and leaves nothing marked |
| Game.GameState.constructor | src/main.rs:62-70 | the new object holds `Initial` |
| Game.GameState.Frame | src/main.rs:72-173 | one loop iteration: the restart branch in Game Over, a Playing step otherwise |
| Game.GameState.RestartBranch | src/main.rs:84-92 | the fields become `RestartSpec` of the old ones |
| Game.GameState.Step | src/main.rs:95-172 | the fields become `StepSpec` of the old ones |
| Game.GameState.CountDownSpawn | src/main.rs:100-104 | the fields become `SpawnPhase` of the old ones |
| Game.GameState.SteerPlayer | src/main.rs:107-119 | building the direction axis by axis and normalizing it gives `SteerPhase` of the old fields |
| Game.GameState.MovePlayerAndProjectiles | src/main.rs:129-133 | the player and, in place, every projectile are moved; nothing else changes |
| Game.GameState.ResolveEnemies | src/main.rs:135-154 | moving and testing the enemies one by one gives `CollidePhase` of the state with the enemies moved |
| Game.GameState.ResolveAll | src/main.rs:135-154 | after all passes (`Resolving` at the last index): each enemy is marked for hits and for the edge, each projectile for hitting any enemy; the score grows by `PairCount`; the game is over iff an enemy crossed; player and timer unchanged |
| Game.GameState.ResolveOneEnemy | src/main.rs:136-153 | one pass for enemy `i`: it is moved and marked, the projectiles it hits are marked, its hits are added to the score, and the game ends iff it is below the edge; the no-op player test changes nothing |
| Game.GameState.TestProjectiles | src/main.rs:138-144 | the inner loop marks the enemy iff some projectile is close, marks exactly those projectiles, and adds one point per such projectile |
| Game.GameState.Sweep | src/main.rs:169-170 | the fields become `CleanupPhase` of the old ones |
| Properties.InitialSatisfiesInv | src/main.rs:62-70 | the first state has its timer in (0, 1], nothing marked and the player unmarked |
| Properties.FramePreservesInv | src/main.rs:72-173 | with dt ≥ 0, every frame keeps that invariant, Game Over and restart included |
| Properties.GameOverWaitsForEnter | src/main.rs:73-93 | in Game Over without Enter, a frame changes nothing |
| Properties.StepGrowsByAtMostOne | src/main.rs:99-124 | a Playing frame adds at most one enemy, and adds a projectile only on a Space press |
| Properties.StepKeepsTheUnmarked | src/main.rs:135-170 | a moved enemy that was not hit and is on screen, and a moved projectile that hit nothing, are still there after the frame |
| Properties.StepScoreNeverDecreases | src/main.rs:138-144 | a Playing frame never lowers the score |
| Properties.SpawnedEnemyOnScreen | src/main.rs:36-46 | a spawned enemy starts on the top edge at an abscissa within the screen's width |
| Properties.OneSpawnPerSecond | src/main.rs:100-104 | frames whose times add up to exactly the remaining timer, no shorter run reaching it, spawn exactly one enemy and leave the timer at exactly 1.0 |
| Properties.CleanupIdempotent | src/main.rs:169-170 | a second cleanup changes nothing |
| Properties.HitScenario | src/main.rs:138-144 | an enemy at (100, 100) and a projectile at (110, 105) are both marked and score one point |
| Properties.MissScenario | src/main.rs:138-144 | an enemy at (100, 100) and a projectile at (200, 200) are left alone and score nothing |
| Properties.BoundaryLossScenario | src/main.rs:150-153 | an enemy at y = 601 on a screen 600 high is marked and ends the game |
| Properties.OneProjectileScoresTwice | src/main.rs:135-144 | one projectile between two enemies scores against both, since the loop has no early exit |

## Left out

- Rendering is not modelled, because it is display only: `draw`, `draw_rectangle`, `clear_background`, `measure_text`, `draw_text`, the score text and the Game Over prompt (`src/main.rs:13-15`, `74-83`, `95-97`, `158-166`). Colours are kept as a field only.
- Platform queries are not modelled. `get_frame_time`, `screen_width`, `screen_height`, `is_key_down` and `is_key_pressed` become fields of `Input`.
- The async loop with `next_frame().await` is not modelled. It becomes one `Frame` call per iteration.
- `random_range` is not modelled. Its result is the `spawnX` field, and `Frame` and `Step` require it to lie in `[0, width)`.
- `f32` rounding is not modelled: coordinates, speeds and times are reals.
- The square roots inside `length()` and `normalize_or_zero()` are not computed. Collisions compare squared distances. The platform's square root of two is a parameter, constrained only where a property needs it.
- Geometry.Normalize: its contract covers only the zero vector and vectors of length one. Its general unit-length result is not stated, because the length comes from the caller. For the key directions the game produces, `Simulation.VelocityIsUnit` proves unit length.
- Simulation.StepSpec: it requires only `rootTwo > 0`, as do `Frame` and `Step`; no real number that code can compute squares to exactly 2, so the exact `rootTwo * rootTwo == 2` is only a hypothesis of the unit-length lemmas.
- The `i32` overflow of `score` is not modelled: the score is an unbounded integer.
- The player-against-enemy test (`src/main.rs:147`) is kept as the no-op it is. It changes nothing, and no consequence for it is invented.
