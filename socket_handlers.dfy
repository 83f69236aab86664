/**
 * The per-socket command handlers (server/handlers/socketHandlers.ts):
 * mousemove, shoot, initGame, disconnect and keydown, each an atomic update
 * of the World. Trigonometry happens outside the model: `Shoot` receives
 * the velocity (cos(angle)·8, sin(angle)·8) already computed.
 */
module SocketHandlers {
  import opened Wrappers
  import opened Constants
  import opened MapLoader
  import opened Collision
  import opened GameState
  import opened PlayerUtils

  /** initGame's spawn area: x and y in [128, 2048 - 128). */
  const JoinArea: SpawnArea := SpawnArea(GAMEWIDTH - 256.0, 128.0, GAMEHEIGHT - 256.0, 128.0)

  /** mousemove: only the angle of the socket's player changes; no player, no change. */
  method MouseMove(w: World, socketId: string, angle: real)
    requires w.Valid()
    modifies w`players
    ensures w.Valid()
    ensures socketId in old(w.players) ==>
      w.players == old(w.players)[socketId := old(w.players)[socketId].(angle := angle)]
    ensures socketId !in old(w.players) ==> w.players == old(w.players)
  {
    if socketId in w.players {
      var player := w.players[socketId];
      w.players := w.players[socketId := player.(angle := angle)];
    }
  }

  /**
   * shoot: insert one projectile under a fresh id from getNextProjectileId.
   * The source does not check that the socket has joined.
   */
  method Shoot(w: World, socketId: string, x: real, y: real, velocity: Velocity) returns (id: int)
    requires w.Valid()
    modifies w`projectiles, w`projectileIdCounter
    ensures w.Valid()
    ensures id == old(w.projectileIdCounter) + 1 && id !in old(w.projectiles)
    ensures w.projectiles == old(w.projectiles)[id := Projectile(x, y, velocity, socketId, PROJECTILE_RADIUS)]
    ensures |w.projectiles| == |old(w.projectiles)| + 1
  {
    id := w.NextProjectileId();
    w.projectiles := w.projectiles[id := Projectile(x, y, velocity, socketId, PROJECTILE_RADIUS)];
  }

  /** The player record initGame stores for a spawn point and a colour draw. */
  function NewPlayer(x: real, y: real, hueDraw: real, username: string): Player {
    Player(x, y, Hsl(255.0 * hueDraw), 0, 0, username, 100, 0.0, RADIUS)
  }

  /**
   * initGame: search the join area for a clear point, then draw the hue and
   * store a fresh player under the socket id (replacing any earlier one).
   * When the draws run out first the model reports `joined == false` and
   * changes nothing.
   */
  method InitGame(w: World, socketId: string, username: string) returns (joined: bool)
    requires w.Valid()
    modifies w`players, w`random
    ensures w.Valid()
    ensures var s := SpawnSearch(w.obstacles, JoinArea, old(w.random));
      && joined == (s.Some? && s.value.draws < |old(w.random)|)
      && (joined ==>
            && w.players == old(w.players)[socketId :=
                 NewPlayer(s.value.x, s.value.y, old(w.random)[s.value.draws], username)]
            && w.random == old(w.random)[s.value.draws + 1..])
      && (!joined ==> w.players == old(w.players) && w.random == old(w.random))
    ensures joined ==>
      var p := w.players[socketId];
      && p.health == 100 && p.score == 0 && p.sequenceNumber == 0 && p.radius == RADIUS
      && !HitboxBlocked(w.obstacles, p.x, p.y)
  {
    var found := FindSpawn(w.obstacles, JoinArea, w.random);
    if found.None? || found.value.draws >= |w.random| {
      return false;
    }
    var hueDraw := w.random[found.value.draws];
    w.players := w.players[socketId := NewPlayer(found.value.x, found.value.y, hueDraw, username)];
    w.random := w.random[found.value.draws + 1..];
    joined := true;
  }

  /** disconnect: remove exactly that socket's player. */
  method Disconnect(w: World, socketId: string)
    requires w.Valid()
    modifies w`players
    ensures w.Valid()
    ensures w.players == old(w.players) - {socketId}
    ensures socketId !in w.players
  {
    w.players := w.players - {socketId};
  }

  /** Whether the border clamp of the keydown case fires for this key. */
  predicate ClampFires(p: Player, keycode: string) {
    if keycode == "KeyA" then p.x - SPEED - p.radius < 64.0
    else if keycode == "KeyW" then p.y - SPEED - p.radius < 96.0
    else if keycode == "KeyS" then p.y + SPEED + p.radius > GAMEHEIGHT - 64.0
    else if keycode == "KeyD" then p.x + SPEED + p.radius > GAMEWIDTH - 64.0
    else false
  }

  /** The recognised movement keys. */
  predicate IsMoveKey(keycode: string) {
    keycode == "KeyA" || keycode == "KeyW" || keycode == "KeyS" || keycode == "KeyD"
  }

  /**
   * The keydown handler on a present player: record the sequence number,
   * then for a movement key move one axis by SPEED, clamp to the border
   * margin (64 left, 96 top, 64 bottom and right), and if the hitbox is then
   * blocked add SPEED back in the opposite direction.
   */
  function KeyMove(obstacles: seq<Obstacle>, p: Player, keycode: string, sequenceNumber: int): (q: Player)
    ensures q == p.(x := q.x, y := q.y, sequenceNumber := sequenceNumber)
    ensures !IsMoveKey(keycode) ==> q == p.(sequenceNumber := sequenceNumber)
    ensures keycode == "KeyA" || keycode == "KeyD" ==> q.y == p.y
    ensures keycode == "KeyW" || keycode == "KeyS" ==> q.x == p.x
    ensures keycode == "KeyA" ==> q.x - q.radius >= 64.0
    ensures keycode == "KeyW" ==> q.y - q.radius >= 96.0
    ensures keycode == "KeyS" ==> q.y + q.radius <= GAMEHEIGHT - 64.0
    ensures keycode == "KeyD" ==> q.x + q.radius <= GAMEWIDTH - 64.0
    ensures IsMoveKey(keycode) && !ClampFires(p, keycode) ==>
      (q.x == p.x && q.y == p.y) || !HitboxBlocked(obstacles, q.x, q.y)
    ensures !ClampFires(p, keycode) && !HitboxBlocked(obstacles, p.x, p.y) ==>
      !HitboxBlocked(obstacles, q.x, q.y)
  {
    var p := p.(sequenceNumber := sequenceNumber);
    if keycode == "KeyA" then
      var x := p.x - SPEED;
      var x := if x - p.radius < 64.0 then p.radius + 64.0 else x;
      p.(x := if HitboxBlocked(obstacles, x, p.y) then x + SPEED else x)
    else if keycode == "KeyW" then
      var y := p.y - SPEED;
      var y := if y - p.radius < 96.0 then p.radius + 96.0 else y;
      p.(y := if HitboxBlocked(obstacles, p.x, y) then y + SPEED else y)
    else if keycode == "KeyS" then
      var y := p.y + SPEED;
      var y := if y + p.radius > GAMEHEIGHT - 64.0 then GAMEHEIGHT - p.radius - 64.0 else y;
      p.(y := if HitboxBlocked(obstacles, p.x, y) then y - SPEED else y)
    else if keycode == "KeyD" then
      var x := p.x + SPEED;
      var x := if x + p.radius > GAMEWIDTH - 64.0 then GAMEWIDTH - p.radius - 64.0 else x;
      p.(x := if HitboxBlocked(obstacles, x, p.y) then x - SPEED else x)
    else
      p
  }

  /** keydown: ignored without a player; otherwise the player becomes KeyMove of itself. */
  method KeyDown(w: World, socketId: string, keycode: string, sequenceNumber: int)
    requires w.Valid()
    modifies w`players
    ensures w.Valid()
    ensures socketId in old(w.players) ==>
      w.players == old(w.players)[socketId := KeyMove(w.obstacles, old(w.players)[socketId], keycode, sequenceNumber)]
    ensures socketId !in old(w.players) ==> w.players == old(w.players)
  {
    if socketId !in w.players {
      return;
    }
    var player := MovePlayer(w.obstacles, w.players[socketId], keycode, sequenceNumber);
    HealthKeptBy(w.players, socketId, player);
    w.players := w.players[socketId := player];
  }

  /** The body of the keydown handler on the socket's player record, step by step. */
  method MovePlayer(obstacles: seq<Obstacle>, p: Player, keycode: string, sequenceNumber: int) returns (player: Player)
    ensures player == KeyMove(obstacles, p, keycode, sequenceNumber)
  {
    player := p.(sequenceNumber := sequenceNumber);
    if keycode == "KeyA" {
      player := player.(x := player.x - SPEED);
      if player.x - player.radius < 64.0 {
        player := player.(x := player.radius + 64.0);
      }
      var blocked := ObstacleCollision(obstacles, player.x - 16.0, player.y - 32.0, 32.0, 64.0);
      if blocked {
        player := player.(x := player.x + SPEED);
      }
    } else if keycode == "KeyW" {
      player := player.(y := player.y - SPEED);
      if player.y - player.radius < 96.0 {
        player := player.(y := player.radius + 96.0);
      }
      var blocked := ObstacleCollision(obstacles, player.x - 16.0, player.y - 32.0, 32.0, 64.0);
      if blocked {
        player := player.(y := player.y + SPEED);
      }
    } else if keycode == "KeyS" {
      player := player.(y := player.y + SPEED);
      if player.y + player.radius > GAMEHEIGHT - 64.0 {
        player := player.(y := GAMEHEIGHT - player.radius - 64.0);
      }
      var blocked := ObstacleCollision(obstacles, player.x - 16.0, player.y - 32.0, 32.0, 64.0);
      if blocked {
        player := player.(y := player.y - SPEED);
      }
    } else if keycode == "KeyD" {
      player := player.(x := player.x + SPEED);
      if player.x + player.radius > GAMEWIDTH - 64.0 {
        player := player.(x := GAMEWIDTH - player.radius - 64.0);
      }
      var blocked := ObstacleCollision(obstacles, player.x - 16.0, player.y - 32.0, 32.0, 64.0);
      if blocked {
        player := player.(x := player.x - SPEED);
      }
    }
  }

  /**
   * After a clamp the undo adds SPEED to the CLAMPED value instead of
   * restoring the old coordinate: a clear player at (80, 120) beside the wall
   * cell at (0, 64) presses KeyA, is clamped to 79, collides, and ends at 82,
   * to the right of where it started.
   */
  lemma ClampThenUndoMovesAgainstKey()
    ensures var p := Player(80.0, 120.0, Named("red"), 0, 0, "", 100, 0.0, RADIUS);
      && !HitboxBlocked([Obstacle(0, 64)], p.x, p.y)
      && ClampFires(p, "KeyA")
      && KeyMove([Obstacle(0, 64)], p, "KeyA", 1).x == 82.0
  {
    assert Overlaps(Obstacle(0, 64), 79.0 - 16.0, 120.0 - 32.0, 32.0, 64.0);
  }
}
