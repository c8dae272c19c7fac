# Endless-runner gameplay logic in Dafny

A ball rolls forward on a track of tiles that is extended one tile at a time, dodges obstacles by steering or swiping, and can be paused. This project models the decision logic of three gameplay scripts and proves what each promises:

- **Tile generator** (`GameController`, module `TileSpawning`). A cursor (position and rotation) says where the next tile goes. `SpawnNextTile` places the tile prefab at the cursor and moves the cursor to the new tile's `NextSpawnPoint` child. If obstacles are enabled and the tile has a child tagged `ObstacleSpawn`, it puts one obstacle on a randomly chosen such child, parented to that child. `Start` resets the cursor to the start point with identity rotation, then runs a warm-up loop whose first `initNoObstacles` calls suppress obstacles.
- **Player input** (`PlayerBehaviour`, module `PlayerControl`). Binary left/right steering from the pointer's viewport x. A two-phase swipe gesture that teleports the ball sideways when the sweep test finds nothing in the way. A per-frame update that does nothing while the game is paused.
- **Pause screen** (`PauseScreenBehaviour`, module `PauseMenu`). The static `paused` flag, the engine's global time scale and the pause menu's visibility, written together by `SetPauseMenu` and reset by `Start`.

Each class is specified by a pure function on a value of its state (`World`, `PauseState`, the target position of a swipe). Each method's postcondition ties the new state to that function. The properties are proved as contracts of those functions and as lemmas about them.

Engine services become inputs:

- Instantiating the tile prefab at a pose is a `Layout`: a function from that pose to the world poses of the new tile's `NextSpawnPoint` and of its direct children.
- The value of `Random.Range(0, count)` is a `roll` argument, required to lie in `[0, count)` whenever `count > 0`. `Start` takes one roll per loop iteration.
- `Rigidbody.SweepTest` is a function parameter from a direction and a distance to "something is in the way".
- `Camera.ScreenToViewportPoint` is replaced by the viewport x it would return, given as an input.
- The static `PauseScreenBehaviour.paused` is a field of a `PauseScreenBehaviour` object. The player's update methods receive that object.
- The source keeps no reference to what it spawns. The model records every tile and obstacle ever spawned, so that where they are placed can be stated. Destroying them is not modelled (see "## Left out").

`SwipeTeleport` never clears `touchStart`: an `Ended` touch leaves it as it was, so a later `Ended` without a new `Began` measures from the old start. `SwipeTeleport`'s contract states this.

## Model

| member | source | states |
|---|---|---|
| `TileSpawning.ObstacleSpawnPoints` | Assets/Scripts/GameController.cs:68-78 | every candidate is the index of a child tagged `ObstacleSpawn`, and candidates keep the children's order |
| `TileSpawning.ObstacleSpawnPointsExact` | Assets/Scripts/GameController.cs:72-78 | a child index is a candidate iff that child carries the `ObstacleSpawn` tag |
| `TileSpawning.CollectObstacleSpawnPoints` | Assets/Scripts/GameController.cs:69-78 | the `foreach`/`Add` loop builds exactly the candidate list |
| `TileSpawning.SpawnNext` | Assets/Scripts/GameController.cs:54-95 | exactly one tile is added, at the cursor as it was on entry. The cursor becomes that tile's `NextSpawnPoint` even when obstacles are off. An obstacle is created iff obstacles are on and the tile has a candidate, and then there is exactly one. It sits at the position of a tagged child of the new tile (never another tile's), with identity rotation, parented to candidate number `roll` of the tagged children in child order. The roll is required to lie in `[0, count)`, as `Random.Range` guarantees |
| `TileSpawning.SpawnNextReachesEveryCandidate` | Assets/Scripts/GameController.cs:72-93 | every child tagged `ObstacleSpawn` is the obstacle's anchor for some roll in `[0, count)`, so no candidate is out of reach of `Random.Range` |
| `TileSpawning.SpawnNextWellFormed` | Assets/Scripts/GameController.cs:72-93 | a spawn keeps the scene well formed: every obstacle is on a tagged child of some tile, at most one obstacle per tile, in tile order |
| `TileSpawning.ChainLinked` | Assets/Scripts/GameController.cs:56-61 | across a chain of spawns the first tile is at the starting cursor and tile k+1 is placed at tile k's `NextSpawnPoint` |
| `TileSpawning.ChainAt` | Assets/Scripts/GameController.cs:56-61 | tile k of a chain is the prefab placed at the cursor after k spawns |
| `TileSpawning.SpawnAll` | Assets/Scripts/GameController.cs:54-61 | any run of `SpawnNextTile` calls appends exactly the chain of tiles from the cursor on entry and leaves the cursor at the chain's end |
| `TileSpawning.SpawnAllWellFormed` | Assets/Scripts/GameController.cs:72-93 | a run of spawns keeps the scene well formed, so each tile carries at most one obstacle |
| `TileSpawning.SpawnAllKeepsObstacles` | Assets/Scripts/GameController.cs:82-93 | a run of spawns never removes or changes an obstacle: the old obstacles are a prefix of the new ones |
| `TileSpawning.SpawnAllObstacles` | Assets/Scripts/GameController.cs:63-66 | each obstacle a run of spawns adds lies on a tile of the run whose call had obstacles enabled |
| `TileSpawning.ObstacleFlags` | Assets/Scripts/GameController.cs:45-48 | the loop makes `initSpawnNum` calls (none when it is not positive), and call i suppresses obstacles iff i < `initNoObstacles` |
| `TileSpawning.EligibleCalls` | Assets/Scripts/GameController.cs:45-48 | for 0 <= `initNoObstacles` <= `initSpawnNum`, exactly `initSpawnNum - initNoObstacles` calls may spawn obstacles. It also covers the other orderings of the two values |
| `TileSpawning.DefaultWarmUp` | Assets/Scripts/GameController.cs:17-48 | with the inspector defaults, `Start` makes 10 calls: the first 4 suppress obstacles and the other 6 are eligible. It lays 10 tiles starting at (0, 0, -5) with identity rotation, and the first 4 carry no obstacle |
| `TileSpawning.StartUp` | Assets/Scripts/GameController.cs:39-49 | `Start` appends exactly the chain of `initSpawnNum` tiles (none when it is not positive) that begins at `startPoint` with identity rotation, and leaves the cursor at the chain's end |
| `TileSpawning.StartUpPlacesChain` | Assets/Scripts/GameController.cs:39-49 | `Start` adds `initSpawnNum` tiles. The first is at `startPoint` with identity rotation, each later one is at its predecessor's `NextSpawnPoint`, and none of the first `initNoObstacles` carries an obstacle |
| `TileSpawning.GameController.SpawnNextTile` | Assets/Scripts/GameController.cs:54-95 | the imperative method changes the cursor, tiles and obstacles exactly as `SpawnNext` says. `spawnObstacles` defaults to true, as in the source |
| `TileSpawning.GameController.Start` | Assets/Scripts/GameController.cs:39-49 | resets the cursor to `startPoint` with identity rotation, then runs the warm-up loop, with the result `StartUp` describes |
| `PlayerControl.CalculateMovement` | Assets/Scripts/PlayerBehaviour.cs:116-137 | returns +dodgeSpeed when viewport x > 0.5 and -dodgeSpeed otherwise, 0.5 included. It never returns any other value |
| `PlayerControl.SwipeDirection` | Assets/Scripts/PlayerBehaviour.cs:159-178 | no direction iff the horizontal swipe extent is below the minimum. Otherwise left iff dx < 0 and right iff dx >= 0 |
| `PlayerControl.SwipeTarget` | Assets/Scripts/PlayerBehaviour.cs:159-187 | the body moves by exactly `swipeMove` (in real arithmetic) along the swipe direction iff the swipe passed the threshold and the sweep test reports no hit. Otherwise it is unmoved. y and z never change |
| `PlayerControl.PlayerBehaviour.SwipeTeleport` | Assets/Scripts/PlayerBehaviour.cs:143-189 | `Began` records the touch position and moves nothing. `Ended` keeps `touchStart` and moves the body as `SwipeTarget` says. Every other phase changes nothing |
| `PlayerControl.PlayerBehaviour.UpdateStandalone` | Assets/Scripts/PlayerBehaviour.cs:50-69 | no force while paused. Otherwise the horizontal speed is axis times dodgeSpeed, replaced by `CalculateMovement` while the mouse button is held |
| `PlayerControl.PlayerBehaviour.UpdateMobile` | Assets/Scripts/PlayerBehaviour.cs:50-99 | while paused: no force, no `touchStart` change, no movement. Otherwise: tilt or touch steering by mode, and the first touch drives the swipe gesture |
| `PauseMenu.SetPause` | Assets/Scripts/PauseScreenBehaviour.cs:26-33 | afterwards `paused` equals the argument, the time scale is 0 if paused and 1 otherwise and never any other value, and the menu is active iff paused |
| `PauseMenu.SetPauseLastWins` | Assets/Scripts/PauseScreenBehaviour.cs:26-33 | the resulting state depends only on the last argument, not on prior state, so a repeated call changes nothing |
| `PauseMenu.Started` | Assets/Scripts/PauseScreenBehaviour.cs:35-39 | `Start` leaves `paused` false, time scale 1 and the menu hidden |
| `PauseMenu.PauseScreenBehaviour.SetPauseMenu` | Assets/Scripts/PauseScreenBehaviour.cs:26-33 | the three fields change exactly as `SetPause` says |
| `PauseMenu.PauseScreenBehaviour.Start` | Assets/Scripts/PauseScreenBehaviour.cs:35-39 | the three fields change exactly as `Started` says |

## Left out

- Instantiate, Find and transform composition: the world poses of a placed tile's children are an abstract `Layout`. Parenting the obstacle is recorded as the (tile, child) pair it hangs on.
- A tile prefab without a `NextSpawnPoint` child: the source would fail with a null reference after placing the tile. The model assumes the prefab has that child.
- `Random.Range`: it is an argument with a range precondition, so the uniform distribution is not modelled.
- PlayerControl.PlayerBehaviour.UpdateStandalone: states the horizontal speed that goes into the force, not the force vector itself, because scaling and `AddForce` are float physics (see the next line).
- PlayerControl.PlayerBehaviour.UpdateMobile: states the horizontal speed and the swipe effect, not the force vector or the `TouchObjects` raycast, for the same reasons.
- The force in `PlayerBehaviour.Update` (Assets/Scripts/PlayerBehaviour.cs:101-107): scaling by `rollSpeed` and by frame time, and `AddForce`, are float physics. The update methods return only the horizontal speed that goes into the force, or `None` when the frame returns early.
- `MovePosition` is modelled as setting the body's position at once. The physics step that applies it is not modelled.
- Reading the accelerometer, touches and the mouse: these are inputs. The conditional compilation is modelled as two update methods, one per platform branch.
- `TouchObjects` (Assets/Scripts/PlayerBehaviour.cs:196-208): a raycast plus a reflective message send.
- `ObstacleBehaviour`, `TileEndBehaviour`, `CameraBehaviour`, `MainMenuBehaviour.LoadLevel` and `PauseScreenBehaviour.Restart`: scene loading, delayed destruction and camera following are engine lifecycle work with no decision logic. The one call `TileEndBehaviour` makes, `SpawnNextTile()` with the default `spawnObstacles = true`, is `GameController.SpawnNextTile(roll)` with the same default, covered by `SpawnNext` and `SpawnAll`.
- Destroying tiles and obstacles after the player passes them: the scene grows and never shrinks in the model.
- Float arithmetic: positions, pixel coordinates and speeds are exact reals. The source rounds `touchEnd.x - touchStart.x`, `rb.position + moveDirection * swipeMove` and `axis * dodgeSpeed` to float, so in the last bit the swipe threshold test and the new x can differ from the model.
- PlayerControl.SwipeTarget: the body moves by exactly `swipeMove` in real arithmetic; in the source the sum is rounded to float (see the previous line).
