# Multiplayer shooter core in Dafny

This project models the simulation core of a small browser shooter written in
TypeScript, and proves properties of that model. The core has two sides.

The authoritative server (`server/`) holds id-keyed maps of players,
projectiles and enemies. Its socket commands update them:

- join (`initGame`), aim (`mousemove`), fire (`shoot`), `disconnect`;
- the `keydown` move, which steps, clamps to the border, and undoes the step
  on a collision.

A fixed tick advances every projectile. The tick destroys a projectile on an
obstacle or off the board. Otherwise the first player it reaches, other than
its owner, takes 20 damage. A kill respawns the victim on a clear point and
gives the shooter one point.

The client (`public/*.ts`) does the rest:

- it predicts its own movement and logs each input with an increasing
  sequence number;
- it mirrors the server's snapshots into its own maps;
- it reconciles the pending-input log with the sequence number the server
  echoes, then replays the inputs not yet acknowledged on top of the server
  position;
- it smooths every player toward its target, fades particles, culls enemies
  and clamps the camera.

Both sides are written as imperative Dafny:

- The server world is the class `GameState.World`, with map fields that the
  handler methods reassign.
- The client is the class `ClientGame.Game`, plus `Camera.Camera`.
- Every method with a loop is proved equal to a specification function on
  values, and the listed properties are proved about those functions.
- `Math.random` is a finite stream of draws in [0, 1), stored as a field of
  the world.
- Trigonometric velocities and the enemy step are parameters.

Modules, one per source file:

- `MapLoader`: `server/map/mapLoader.ts`;
- `Collision`: `server/game/collision.ts`;
- `GameState`: `server/state/gameState.ts`;
- `PlayerUtils`: `server/utils/playerUtils.ts`;
- `SocketHandlers`: `server/handlers/socketHandlers.ts`;
- `GameLoop`: `server/game/gameLoop.ts`;
- `ClientGame`: `public/Game.ts`, plus `Particle.update`;
- `Frontend`: `public/frontend.ts`;
- `Camera`: `public/Camera.ts`;
- `Constants`: `server/config/constants.ts`;
- `Wrappers`: `Option`.

Three behaviours of the code are modelled as written:

- **Keydown clamp, then undo.** The undo adds SPEED to the clamped
  coordinate, not to the old one. A player pressed against the border next to
  a wall can end up moving away from the key's direction; the lemma
  `SocketHandlers.ClampThenUndoMovesAgainstKey` exhibits this.
- **Projectile box.** The obstacle test uses an 8×8 box whose top-left corner
  is the projectile position. It is not a box centred on the projectile.
- **Acknowledgement.** The client matches the echoed sequence number by
  equality. When the number is missing from the log, the log is kept whole.

## Model

| member | source | states |
|---|---|---|
| MapLoader.SetObstacles | server/map/mapLoader.ts:20-31 | the loop returns the obstacle list of the first 1024 cells: one obstacle per non-zero cell, as many as there are such cells, in increasing cell order |
| MapLoader.CellOfObstacleAt | server/map/mapLoader.ts:24-27 | cell i's obstacle, at ((i mod 32)·64, ⌊i/32⌋·64), maps back to i, so each origin identifies its cell |
| MapLoader.ObstacleMembership | server/map/mapLoader.ts:22-28 | an origin is in the list exactly when it is the origin of some blocking cell below the bound |
| MapLoader.ObstacleCount | server/map/mapLoader.ts:21-30 | the list length equals the number of blocking cells |
| MapLoader.ObstaclesAscending | server/map/mapLoader.ts:22-28 | obstacles appear in strictly increasing row-major cell order |
| MapLoader.ObstaclesDistinct | server/map/mapLoader.ts:22-28 | no two obstacles share an origin |
| MapLoader.ObstacleCoordinates | server/map/mapLoader.ts:25-26 | every coordinate is a multiple of 64 in [0, 1984] |
| MapLoader.ZeroLayerHasNoObstacles | server/map/mapLoader.ts:22-23 | an all-zero layer yields no obstacles |
| Collision.ObstacleCollision | server/game/collision.ts:12-31 | the loop answers true iff some obstacle overlaps the rectangle strictly on both axes; false for an empty list |
| Collision.EdgeContactIsClear | server/game/collision.ts:22-25 | a rectangle that only shares an edge with an obstacle does not overlap it |
| Collision.BlockedIgnoresOrder | server/game/collision.ts:18-28 | the answer does not depend on the order of the obstacle list |
| Collision.BlockedGrows | server/game/collision.ts:21-26 | any rectangle containing a colliding rectangle collides too |
| GameState.World.constructor | server/state/gameState.ts:6-43 | empty player and projectile maps, projectile counter 0, exactly one enemy under id 1 (500, 500, health 100, radius 15, no target) |
| GameState.World.NextProjectileId | server/state/gameState.ts:15-18 | increments the counter and returns the new value, an id not yet in use; the enemy counter is untouched |
| GameState.World.NextEnemyId | server/state/gameState.ts:27-30 | increments the enemy counter and returns an unused id; the projectile counter is untouched |
| PlayerUtils.SpawnSearch | server/utils/playerUtils.ts:14-17 | a found point comes from the last two draws consumed, its hitbox is clear, and every earlier candidate was blocked; none found means every candidate in the draws was blocked |
| PlayerUtils.FindSpawn | server/utils/playerUtils.ts:14-17 | the do-while rejection loop computes SpawnSearch |
| PlayerUtils.CandidateInArea | server/utils/playerUtils.ts:15-16 | a candidate from draws in [0, 1) lies in [offset, offset + extent) on each axis |
| PlayerUtils.RespawnInBounds | server/utils/playerUtils.ts:15-17 | a respawn point has x in [50, 1998), y in [100, 1948) and a clear hitbox |
| PlayerUtils.ResetPlayer | server/utils/playerUtils.ts:11-22 | only x, y and health change; health becomes 100 at a clear point; the consumed draws are dropped |
| SocketHandlers.MouseMove | server/handlers/socketHandlers.ts:24-29 | only the angle of an existing player changes; without a player nothing changes; the world invariant, health included, is kept |
| SocketHandlers.Shoot | server/handlers/socketHandlers.ts:32-45 | exactly one projectile is added, under the fresh id, owned by the socket with radius 4; the others are unchanged |
| SocketHandlers.InitGame | server/handlers/socketHandlers.ts:48-69 | stores under the socket id a player with health 100, score 0, sequence number 0, radius 15 and a clear hitbox |
| SocketHandlers.Disconnect | server/handlers/socketHandlers.ts:72-76 | removes exactly the socket's key; the world invariant is kept |
| SocketHandlers.KeyMove | server/handlers/socketHandlers.ts:84-123 | the sequence number is always set; unknown keys change nothing else; one axis moves; the border bounds hold after the key; without a clamp a clear hitbox stays clear |
| SocketHandlers.KeyDown | server/handlers/socketHandlers.ts:79-124 | a missing player means no change; otherwise the player becomes KeyMove of itself; the world invariant, health included, is kept |
| SocketHandlers.MovePlayer | server/handlers/socketHandlers.ts:81-123 | the handler's in-place updates of the record (sequence number, move, clamp, undo) compute KeyMove |
| SocketHandlers.ClampThenUndoMovesAgainstKey | server/handlers/socketHandlers.ts:88-94 | a clear player at (80, 120) beside the wall cell at (0, 64) ends at x = 82 after KeyA |
| GameLoop.FirstHitIndex | server/game/gameLoop.ts:59-97 | the first player in iteration order that is in reach and not the owner, or none if there is no such player |
| GameLoop.FindTarget | server/game/gameLoop.ts:59-97 | the inner loop with its break computes FirstHitIndex |
| GameLoop.Tick | server/game/gameLoop.ts:21-99 | every enemy becomes the enemy step of itself; players, projectiles, draws and hit events are those of Run over the projectile ids in ascending order; a tick that completes leaves the world invariant (issued ids, draws in [0, 1), every health among 20, 40, ..., 100) in force |
| GameLoop.StepEnemies | server/game/gameLoop.ts:23-26 | the enemy loop applies the enemy step to every enemy exactly once and keeps the key set |
| GameLoop.StepProjectiles | server/game/gameLoop.ts:29-99 | the projectile loop, with deletion while iterating, computes Run over the ids in order, stopping at a stalled respawn; when it completes, every health is again among 20, 40, ..., 100 |
| GameLoop.StepProjectile | server/game/gameLoop.ts:29-98 | one body of the projectile loop (advance, wall and bounds removal, target search, hit) computes Step and keeps the invariant when it completes |
| GameLoop.StrikePlayer | server/game/gameLoop.ts:72-96 | the hit branch computes Strike: 20 damage, respawn and shooter credit at 0 or below, the effect, the deletion; the invariant holds again once the respawn succeeds |
| GameLoop.RunStopsAfterStall | server/game/gameLoop.ts:29-99 | once a respawn search runs out of draws, later iterations change nothing |
| GameLoop.RunShape | server/game/gameLoop.ts:29-99 | no player is added or removed; no projectile is created; draws are consumed from the front; at most one hit event per visited projectile |
| GameLoop.RunLeavesOthers | server/game/gameLoop.ts:29-32 | projectiles that are not visited keep their key and value |
| GameLoop.RunAdvancesSurvivors | server/game/gameLoop.ts:29-32 | each surviving visited projectile moved by exactly its velocity; survivors differ from before only in position |
| GameLoop.RunKeepsHealthInRange | server/game/gameLoop.ts:72-76 | player health stays a multiple of 20 in [20, 100] |
| GameLoop.RunScoresNeverDecrease | server/game/gameLoop.ts:77-80 | no player's score goes down over the tick |
| GameLoop.StepResolvesHit | server/game/gameLoop.ts:68-96 | the struck player is in reach and not the owner; it loses 20 health; at 0 or below it is respawned with 100 and the present shooter gains exactly 1; one hit event; the projectile is removed; other players unchanged |
| GameLoop.StepRemovesBlockedOrOutOfBounds | server/game/gameLoop.ts:35-56 | a projectile whose advanced box hits an obstacle or that is off the board is removed and nothing else changes |
| GameLoop.Struck | server/game/gameLoop.ts:29-71 | a struck player is present, in reach, not the owner and listed in the iteration order, and the advanced projectile met no wall and stayed on the board; no strike on a live, unblocked projectile means no listed player is in reach |
| GameLoop.StepSparesUntouched | server/game/gameLoop.ts:59-98 | a step changes no player other than the one it strikes and, on a kill, the shooter |
| GameLoop.RunSparesUntouched | server/game/gameLoop.ts:59-98 | every player that no step strikes and that no kill credits leaves the tick unchanged, whatever its own shots and whoever else is in reach |
| GameLoop.RunSparesBystander | server/game/gameLoop.ts:59-98 | a player not reached by any projectile and owning none is unchanged by the tick |
| GameLoop.RunHitsConsumeProjectiles | server/game/gameLoop.ts:95-96 | every hit event removes a projectile: hits plus projectiles never grow |
| GameLoop.ProjectileStopsAtWall | server/game/gameLoop.ts:31-45 | a projectile at (148, 100) moving (8, 0) enters the obstacle at (160, 64) and is removed |
| Camera.ClampOffset | public/Camera.ts:26-34 | within [0, world − window] when the world is at least as large as the window; exactly centred when that is in range; 0 or world − window past either edge |
| Camera.ClampMonotone | public/Camera.ts:26-29 | the camera offset is non-decreasing in the player coordinate |
| Camera.Camera.constructor | public/Camera.ts:11-23 | the offsets start at (0, 0); window and world sizes are the arguments |
| Camera.Camera.Update | public/Camera.ts:25-35 | x is ClampOffset of the player x alone and y of the player y alone; the old offsets are discarded, so repeating the call is idempotent |
| ClientGame.Game.constructor | public/Game.ts:39-127 | the mirrored maps and input log are the arguments; no particles or enemies; all four keys released and counter 0; the camera at (0, 0) over the 2048 × 2048 world; with an empty log the game state is valid |
| ClientGame.PressedMoves | public/Game.ts:134-185 | at most four moves; each belongs to a pressed key with its delta (0, −speed), (−speed, 0), (0, speed) or (speed, 0); every pressed key has its move |
| ClientGame.PressedMovesInOrder | public/Game.ts:134-185 | exactly one move per pressed key, listed in the order W, A, S, D of the interval's checks |
| ClientGame.Logged | public/Game.ts:135-140 | the i-th logged input is numbered n + i + 1 and carries the i-th move's delta |
| ClientGame.Game.InputStep | public/Game.ts:129-187 | without the local player nothing happens; otherwise one input per pressed key is appended and sent, numbered consecutively after the counter, and the log stays increasing and below the counter |
| ClientGame.SetKey | public/Game.ts:270-299 | only the flag of a movement key changes |
| ClientGame.Game.KeyDownHandler | public/Game.ts:270-284 | sets the matching flag only when the local player exists |
| ClientGame.Game.KeyUpHandler | public/Game.ts:286-299 | clears the matching flag unconditionally |
| ClientGame.Smoothed | public/Game.ts:206-211 | moves halfway to the target; without a target nothing changes |
| ClientGame.SmoothingHalvesDistance | public/Game.ts:206-211 | after n frames the distance to the target is the original divided by 2^n |
| ClientGame.Game.SmoothPlayers | public/Game.ts:203-213 | every player becomes Smoothed of itself |
| ClientGame.UpdatedParticle | public/Particle.ts:47-54 | opacity drops exactly when the particle fades; colour, radius and fading are kept |
| ClientGame.VisibleFilters | public/Game.ts:232-241 | the kept particles all have opacity above 0, every such particle is kept, and nothing is added |
| ClientGame.VisibleKeepsLive | public/Game.ts:232-241 | with no particle at or below 0 opacity, nothing is removed |
| ClientGame.Game.ParticlesHandler | public/Game.ts:232-241 | the reverse splice loop leaves the live particles in order, each updated once |
| ClientGame.Game.EnemiesHandler | public/Game.ts:221-230 | deletes exactly the enemies whose health is defined and at most 0 |
| ClientGame.Game.Update | public/Game.ts:189-219 | camera on the local player, then smoothing, particles and enemies as above |
| Frontend.AckIndex | public/frontend.ts:133-135 | the first index whose sequence number equals the echoed one, or −1 if there is none |
| Frontend.FindAck | public/frontend.ts:133-135 | the findIndex loop computes AckIndex |
| Frontend.AckDropsAcknowledged | public/frontend.ts:133-138 | on an increasing log that holds the echoed number, what remains is exactly the inputs numbered after it, in order |
| Frontend.MissingAckKeepsLog | public/frontend.ts:137-138 | when no input carries the echoed number, the log is unchanged |
| Frontend.UnacknowledgedKeepsOrder | public/frontend.ts:137-138 | the spliced log is a suffix of the log, still increasing and below the counter |
| Frontend.ReplayInputs | public/frontend.ts:139-144 | the target is the server position plus the sums of the remaining dx and dy |
| Frontend.AckOfSecondKeepsThird | public/frontend.ts:132-145 | with inputs 1, 2, 3 pending and 2 echoed, only input 3 remains and is replayed on top of the server position |
| Frontend.PredictionMatchesServer | public/frontend.ts:139-144 | when the server neither clamps nor collides, its keydown step displaces the player exactly as the client's predicted input |
| Frontend.BlockedMoveIsRejected | public/frontend.ts:139-144 | when the server's step collides without a clamp, the server keeps the old position, which differs from the client's prediction by the move's nonzero step |
| Frontend.SyncedPlayer | public/frontend.ts:83-148 | health and angle are the server's; a new player is a fresh copy; a known player keeps everything else, with target the server position, or for the local player the server position plus the replayed log |
| Frontend.Reconcile | public/frontend.ts:132-145 | the log becomes Unacknowledged of itself and stays valid; the target is the server position with that log replayed |
| Frontend.SyncPlayer | public/frontend.ts:81-149 | one snapshot entry updates only that id; only the local player's entry touches the input log |
| Frontend.UpdatePlayers | public/frontend.ts:80-167 | the key set equals the snapshot's; every entry is SyncedPlayer; the log is reconciled only if the local player was already known |
| Frontend.SyncedProjectile | public/frontend.ts:57-71 | a new projectile starts at the server position with its shooter's colour (orange if unknown); a known one advances by the server velocity and keeps its other fields |
| Frontend.UpdateProjectiles | public/frontend.ts:56-78 | the key set equals the snapshot's and every entry is SyncedProjectile |
| Frontend.ProjectileTracksServer | public/frontend.ts:68-71 | a known projectile at the server's previous position lands where the server's tick advanced it |
| Frontend.SyncedEnemy | public/frontend.ts:30-46 | a new enemy is red at the server position, without health; a known one copies x, y and velocity and keeps the rest |
| Frontend.UpdateEnemies | public/frontend.ts:29-54 | the key set equals the snapshot's and every entry is SyncedEnemy |
| Frontend.NoEnemyIsCulled | public/frontend.ts:29-54 | nothing on the client gives an enemy a health, so after a snapshot the enemy handler removes no enemy |

## Left out

- Transport: socket.io, `io.emit` broadcasts, connection wiring and `server/server.ts`. The tick returns its `projectileHit` events as a sequence instead of broadcasting them.
- The DOM: score labels and their sorting, the username form, canvas resize. Drawing: `draw`, tile backgrounds, `requestAnimationFrame`.
- Floating point. Positions are exact `real`s; `Math.hypot(dx, dy) < r` is modelled as `dx² + dy² < r²`.
- Trigonometry. Shot velocities (`cos`, `sin`) arrive as the `velocity` argument of `SocketHandlers.Shoot`. The mouse angle (`atan2`) arrives as the argument of `SocketHandlers.MouseMove`.
- The client's mouse and click listeners in `public/Game.ts` are not modelled: they only emit a computed angle or shot.
- The `projectileHit` particle burst on the client is not modelled: it draws its velocities and opacities from `Math.random`.
- The enemy step. `updateEnemy` is not visible, so `GameLoop.Tick` takes it as a parameter.
- Timing: the 15 ms intervals. Each command, tick, input step and frame is one atomic method call.
- GameLoop.Tick: the source's rejection loop never gives up. Here the draws are a finite prefix, and a search that exhausts it reports `completed == false`, after which the tick changes nothing more.
- SocketHandlers.InitGame: as for the tick, a search that exhausts the draws reports `joined == false` and changes nothing.
- PlayerUtils.ResetPlayer: as for the tick, a search that exhausts the draws reports `respawned == false` and changes nothing.
- GameLoop.Tick: after a stalled tick only the structural part of the invariant (`WellFormed`) is promised. The struck player may be left at 0 health, because in the source that tick never returns.
- `for…in` order. The server's integer projectile keys are visited in ascending order. Player and enemy orders are arbitrary enumerations given as parameters. The client's string-keyed maps are walked in an arbitrary order, which their results do not depend on.
- Snapshot keys. Server projectile and enemy ids are integers, and the client receives them as JSON object keys, so the client-side maps and snapshots are keyed by `string`.
- Out of scope: `backend.ts`, `backend.js`, `dist/backend.js` and the `public/*.js` files (older duplicates of the same logic), the type declarations, and `server/entities/enemyService.ts`.
