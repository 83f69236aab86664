/**
 * The client's socket handlers (public/frontend.ts): mirroring the server's
 * player, projectile and enemy snapshots into the Game's maps, and, for the
 * local player, reconciling the pending-input log with the sequence number
 * the server echoes back and replaying what remains on top of the
 * authoritative position. The DOM score list is not modelled.
 */
module Frontend {
  import opened Wrappers
  import opened Constants
  import opened Collision
  import opened GameState
  import opened ClientGame
  import MapLoader
  import SocketHandlers
  import GameLoop

  /* ---------- Reconciliation ---------- */

  /** playerInputs.findIndex on the echoed sequence number: the first matching index, or -1. */
  function AckIndex(log: seq<PlayerInput>, acked: int): (k: int)
    decreases |log|
    ensures -1 <= k < |log|
    ensures k >= 0 ==>
      log[k].sequenceNumber == acked && forall j :: 0 <= j < k ==> log[j].sequenceNumber != acked
    ensures k == -1 ==> forall j :: 0 <= j < |log| ==> log[j].sequenceNumber != acked
  {
    if log == [] then -1
    else if log[0].sequenceNumber == acked then 0
    else
      var k := AckIndex(log[1..], acked);
      if k == -1 then -1 else k + 1
  }

  /** The log after the splice: drop through the acknowledged input; without a match, keep all. */
  function Unacknowledged(log: seq<PlayerInput>, acked: int): seq<PlayerInput> {
    var k := AckIndex(log, acked);
    if k > -1 then log[k + 1..] else log
  }

  /** The inputs numbered after `acked`, in order. */
  function NewerThan(log: seq<PlayerInput>, acked: int): (r: seq<PlayerInput>)
    decreases |log|
  {
    if log == [] then []
    else (if log[0].sequenceNumber > acked then [log[0]] else []) + NewerThan(log[1..], acked)
  }

  /**
   * On a sorted log that holds the acknowledged number, matching on
   * equality (as the client does) drops exactly the inputs numbered at or
   * below it: what remains is the inputs numbered after it.
   */
  lemma AckDropsAcknowledged(log: seq<PlayerInput>, acked: int)
    requires Increasing(log) && AckIndex(log, acked) >= 0
    ensures Unacknowledged(log, acked) == NewerThan(log, acked)
    ensures forall i :: 0 <= i < |Unacknowledged(log, acked)| ==> Unacknowledged(log, acked)[i].sequenceNumber > acked
  {
    var k := AckIndex(log, acked);
    assert log == log[..k + 1] + log[k + 1..];
    NewerThanSplit(log[..k + 1], log[k + 1..], acked);
  }

  /** A log whose first part is numbered at most `acked` and whose rest above it keeps exactly the rest. */
  lemma {:induction false} NewerThanSplit(a: seq<PlayerInput>, b: seq<PlayerInput>, acked: int)
    requires forall i :: 0 <= i < |a| ==> a[i].sequenceNumber <= acked
    requires forall i :: 0 <= i < |b| ==> b[i].sequenceNumber > acked
    ensures NewerThan(a + b, acked) == b
    decreases |a| + |b|
  {
    if a == [] {
      assert a + b == b;
      NewerThanAll(b, acked);
    } else {
      assert (a + b)[1..] == a[1..] + b;
      NewerThanSplit(a[1..], b, acked);
    }
  }

  lemma {:induction false} NewerThanAll(b: seq<PlayerInput>, acked: int)
    requires forall i :: 0 <= i < |b| ==> b[i].sequenceNumber > acked
    ensures NewerThan(b, acked) == b
    decreases |b|
  {
    if b != [] {
      NewerThanAll(b[1..], acked);
      assert b == [b[0]] + b[1..];
    }
  }

  /** Without the acknowledged number in the log nothing is dropped. */
  lemma MissingAckKeepsLog(log: seq<PlayerInput>, acked: int)
    requires forall i :: 0 <= i < |log| ==> log[i].sequenceNumber != acked
    ensures Unacknowledged(log, acked) == log
  {
  }

  /** The splice keeps a suffix of the log, so the log stays sorted and below the counter. */
  lemma UnacknowledgedKeepsOrder(log: seq<PlayerInput>, acked: int, counter: int)
    requires Increasing(log) && LogBelow(log, counter)
    ensures var r := Unacknowledged(log, acked);
      Increasing(r) && LogBelow(r, counter) && |r| <= |log| && r == log[|log| - |r|..]
  {
  }

  function SumDx(log: seq<PlayerInput>): real
    decreases |log|
  {
    if log == [] then 0.0 else SumDx(log[..|log| - 1]) + log[|log| - 1].dx
  }

  function SumDy(log: seq<PlayerInput>): real
    decreases |log|
  {
    if log == [] then 0.0 else SumDy(log[..|log| - 1]) + log[|log| - 1].dy
  }

  /** The server position with every pending input replayed on top. */
  function Replayed(b: Player, log: seq<PlayerInput>): Point {
    Point(b.x + SumDx(log), b.y + SumDy(log))
  }

  /** The findIndex loop. */
  method FindAck(log: seq<PlayerInput>, acked: int) returns (k: int)
    ensures k == AckIndex(log, acked)
  {
    var i := 0;
    while i < |log|
      invariant 0 <= i <= |log|
      invariant forall j :: 0 <= j < i ==> log[j].sequenceNumber != acked
    {
      if log[i].sequenceNumber == acked {
        AckIndexFirst(log, acked, i);
        return i;
      }
      i := i + 1;
    }
    return -1;
  }

  lemma AckIndexFirst(log: seq<PlayerInput>, acked: int, i: int)
    requires 0 <= i < |log| && log[i].sequenceNumber == acked
    requires forall j :: 0 <= j < i ==> log[j].sequenceNumber != acked
    ensures AckIndex(log, acked) == i
  {
  }

  /** The forEach over the remaining inputs, adding each displacement to the target. */
  method ReplayInputs(target: Point, log: seq<PlayerInput>) returns (r: Point)
    ensures r == Point(target.x + SumDx(log), target.y + SumDy(log))
  {
    r := target;
    var i := 0;
    while i < |log|
      invariant 0 <= i <= |log|
      invariant r == Point(target.x + SumDx(log[..i]), target.y + SumDy(log[..i]))
    {
      assert log[..i + 1][..i] == log[..i];
      r := r.(x := r.x + log[i].dx);
      r := r.(y := r.y + log[i].dy);
      i := i + 1;
    }
    assert log[..i] == log;
  }

  /** Scenario: moves 1, 2, 3 pending, the server echoes 2; only 3 remains and is replayed. */
  lemma AckOfSecondKeepsThird(b: Player)
    requires b.sequenceNumber == 2
    ensures var log := [PlayerInput(1, 0.0, -SPEED), PlayerInput(2, -SPEED, 0.0), PlayerInput(3, 0.0, SPEED)];
      && Unacknowledged(log, b.sequenceNumber) == [PlayerInput(3, 0.0, SPEED)]
      && Replayed(b, Unacknowledged(log, b.sequenceNumber)) == Point(b.x, b.y + SPEED)
  {
    var log := [PlayerInput(1, 0.0, -SPEED), PlayerInput(2, -SPEED, 0.0), PlayerInput(3, 0.0, SPEED)];
    assert AckIndex(log, 2) == 1 by {
      AckIndexFirst(log, 2, 1);
    }
    var rest := [PlayerInput(3, 0.0, SPEED)];
    assert log[2..] == rest;
    assert rest[..0] == [];
    assert SumDx(rest) == SumDx(rest[..0]) + 0.0;
    assert SumDy(rest) == SumDy(rest[..0]) + SPEED;
  }

  /* ---------- Prediction against the server ---------- */

  /**
   * A predicted move matches the server's keydown step whenever the server
   * neither clamps nor collides: the client's displacement is exactly the
   * server's.
   */
  lemma PredictionMatchesServer(obstacles: seq<MapLoader.Obstacle>, p: Player, keys: KeyStates, m: Move, n: int)
    requires m in PressedMoves(keys, SPEED)
    requires !SocketHandlers.ClampFires(p, m.keycode)
    requires !HitboxBlocked(obstacles, p.x + m.dx, p.y + m.dy)
    ensures var q := SocketHandlers.KeyMove(obstacles, p, m.keycode, n);
      q.x == p.x + m.dx && q.y == p.y + m.dy && q.sequenceNumber == n
  {
  }

  /**
   * When the server's move collides without a clamp, the server keeps the
   * old position while the client has already predicted a position one
   * nonzero step away: the two disagree until the server's snapshot arrives.
   */
  lemma BlockedMoveIsRejected(obstacles: seq<MapLoader.Obstacle>, p: Player, keys: KeyStates, m: Move, n: int)
    requires m in PressedMoves(keys, SPEED)
    requires !SocketHandlers.ClampFires(p, m.keycode)
    requires HitboxBlocked(obstacles, p.x + m.dx, p.y + m.dy)
    ensures var q := SocketHandlers.KeyMove(obstacles, p, m.keycode, n);
      && q.x == p.x && q.y == p.y
      && (q.x != p.x + m.dx || q.y != p.y + m.dy)
  {
  }

  /* ---------- Snapshot mirroring ---------- */

  /** The client copy created for a player first seen in a snapshot (speed defaults to 3). */
  function NewFrontPlayer(b: Player): FrontPlayer {
    FrontPlayer(b.x, b.y, b.color, SPEED, b.radius, b.username, b.health, b.angle, None)
  }

  /** A new projectile takes its shooter's colour, or the default orange if the shooter is unknown. */
  function ShooterColor(players: map<string, FrontPlayer>, playerId: string): Color {
    if playerId in players then players[playerId].color else Named("orange")
  }

  /** A client player after the snapshot entry `b` for `id` is applied. */
  function SyncedPlayer(front: map<string, FrontPlayer>, id: string, b: Player, localId: string,
                        log: seq<PlayerInput>): (f: FrontPlayer)
    ensures f.health == b.health && f.angle == b.angle
    ensures id !in front ==> f == NewFrontPlayer(b)
    ensures id in front ==>
      && f == front[id].(health := b.health, angle := b.angle, target := f.target)
      && f.target == Some(if id == localId then Replayed(b, log) else Point(b.x, b.y))
  {
    if id !in front then NewFrontPlayer(b)
    else
      var target := if id == localId then Replayed(b, log) else Point(b.x, b.y);
      front[id].(health := b.health, angle := b.angle, target := Some(target))
  }

  /**
   * The local player's reconciliation: findIndex, splice, then replay what
   * remains onto the server position.
   */
  method Reconcile(g: Game, b: Player) returns (target: Point)
    requires g.Valid()
    modifies g`playerInputs
    ensures g.Valid()
    ensures g.playerInputs == Unacknowledged(old(g.playerInputs), b.sequenceNumber)
    ensures target == Replayed(b, g.playerInputs)
  {
    UnacknowledgedKeepsOrder(g.playerInputs, b.sequenceNumber, g.sequenceNumber);
    var k := FindAck(g.playerInputs, b.sequenceNumber);
    if k > -1 {
      g.playerInputs := g.playerInputs[k + 1..];
    }
    target := ReplayInputs(Point(b.x, b.y), g.playerInputs);
  }

  /** The updatePlayers body for one id of the snapshot. */
  method SyncPlayer(g: Game, id: string, b: Player)
    requires g.Valid()
    modifies g`frontEndPlayers, g`playerInputs
    ensures g.Valid()
    ensures g.playerInputs ==
      if id == g.socketId && id in old(g.frontEndPlayers)
      then Unacknowledged(old(g.playerInputs), b.sequenceNumber)
      else old(g.playerInputs)
    ensures g.frontEndPlayers ==
      old(g.frontEndPlayers)[id := SyncedPlayer(old(g.frontEndPlayers), id, b, g.socketId, g.playerInputs)]
  {
    if id !in g.frontEndPlayers {
      g.frontEndPlayers := g.frontEndPlayers[id := FrontPlayer(b.x, b.y, b.color, SPEED, b.radius, b.username, b.health, 0.0, None)];
    } else {
      var f := g.frontEndPlayers[id];
      f := f.(health := b.health);
      f := f.(target := Some(Point(b.x, b.y)));
      if id == g.socketId {
        var target := Reconcile(g, b);
        f := f.(target := Some(target));
      }
      g.frontEndPlayers := g.frontEndPlayers[id := f];
    }
    g.frontEndPlayers := g.frontEndPlayers[id := g.frontEndPlayers[id].(angle := b.angle)];
  }

  /**
   * updatePlayers: every snapshot player is created or updated (health,
   * target, angle; the local player's log reconciled and replayed), then
   * every client player missing from the snapshot is deleted.
   */
  method UpdatePlayers(g: Game, backEndPlayers: map<string, Player>)
    requires g.Valid()
    modifies g`frontEndPlayers, g`playerInputs
    ensures g.Valid()
    ensures g.playerInputs ==
      if g.socketId in backEndPlayers && g.socketId in old(g.frontEndPlayers)
      then Unacknowledged(old(g.playerInputs), backEndPlayers[g.socketId].sequenceNumber)
      else old(g.playerInputs)
    ensures g.frontEndPlayers.Keys == backEndPlayers.Keys
    ensures forall id :: id in backEndPlayers ==>
      g.frontEndPlayers[id]
      == SyncedPlayer(old(g.frontEndPlayers), id, backEndPlayers[id], g.socketId, g.playerInputs)
  {
    ghost var front, log := g.frontEndPlayers, g.playerInputs;
    ghost var finalLog :=
      if g.socketId in backEndPlayers && g.socketId in front
      then Unacknowledged(log, backEndPlayers[g.socketId].sequenceNumber)
      else log;
    var remaining := backEndPlayers.Keys;
    while remaining != {}
      invariant g.Valid() && remaining <= backEndPlayers.Keys
      invariant g.frontEndPlayers.Keys == front.Keys + (backEndPlayers.Keys - remaining)
      invariant forall id :: id in g.frontEndPlayers ==>
        g.frontEndPlayers[id]
        == if id in backEndPlayers && id !in remaining
           then SyncedPlayer(front, id, backEndPlayers[id], g.socketId, finalLog)
           else front[id]
      invariant g.playerInputs ==
        if g.socketId in backEndPlayers && g.socketId !in remaining && g.socketId in front
        then finalLog
        else log
      decreases remaining
    {
      var id :| id in remaining;
      SyncPlayer(g, id, backEndPlayers[id]);
      remaining := remaining - {id};
    }
    ghost var synced, reconciled := g.frontEndPlayers, g.playerInputs;
    var stale := g.frontEndPlayers.Keys;
    while stale != {}
      invariant g.playerInputs == reconciled && g.Valid()
      invariant backEndPlayers.Keys <= g.frontEndPlayers.Keys <= synced.Keys
      invariant forall id :: id in g.frontEndPlayers && id !in backEndPlayers ==> id in stale
      invariant forall id :: id in g.frontEndPlayers ==> g.frontEndPlayers[id] == synced[id]
      decreases stale
    {
      var id :| id in stale;
      if id !in backEndPlayers {
        g.frontEndPlayers := g.frontEndPlayers - {id};
      }
      stale := stale - {id};
    }
  }

  /** A client projectile after the snapshot entry `b` for `id`: created at `b`, or moved by `b`'s velocity. */
  function SyncedProjectile(front: map<string, FrontProjectile>, players: map<string, FrontPlayer>,
                            id: string, b: Projectile): (f: FrontProjectile)
    ensures id !in front ==>
      f == FrontProjectile(b.x, b.y, b.radius, ShooterColor(players, b.playerId), b.velocity)
    ensures id in front ==>
      && f.x == front[id].x + b.velocity.x && f.y == front[id].y + b.velocity.y
      && f.radius == front[id].radius && f.color == front[id].color && f.velocity == front[id].velocity
  {
    if id !in front then FrontProjectile(b.x, b.y, b.radius, ShooterColor(players, b.playerId), b.velocity)
    else front[id].(x := front[id].x + b.velocity.x, y := front[id].y + b.velocity.y)
  }

  /**
   * updateProjectiles: create the projectiles first seen, move the known
   * ones by their server velocity, then delete those the server dropped.
   */
  method UpdateProjectiles(g: Game, backEndProjectiles: map<string, Projectile>)
    modifies g`frontEndProjectiles
    ensures g.frontEndProjectiles.Keys == backEndProjectiles.Keys
    ensures forall id :: id in backEndProjectiles ==>
      g.frontEndProjectiles[id]
      == SyncedProjectile(old(g.frontEndProjectiles), g.frontEndPlayers, id, backEndProjectiles[id])
  {
    ghost var front := g.frontEndProjectiles;
    var remaining := backEndProjectiles.Keys;
    while remaining != {}
      invariant remaining <= backEndProjectiles.Keys
      invariant g.frontEndProjectiles.Keys == front.Keys + (backEndProjectiles.Keys - remaining)
      invariant forall id :: id in g.frontEndProjectiles ==>
        g.frontEndProjectiles[id]
        == if id in backEndProjectiles && id !in remaining
           then SyncedProjectile(front, g.frontEndPlayers, id, backEndProjectiles[id])
           else front[id]
      decreases remaining
    {
      var id :| id in remaining;
      var b := backEndProjectiles[id];
      if id !in g.frontEndProjectiles {
        var color := if b.playerId in g.frontEndPlayers then g.frontEndPlayers[b.playerId].color else Named("orange");
        g.frontEndProjectiles := g.frontEndProjectiles[id := FrontProjectile(b.x, b.y, b.radius, color, b.velocity)];
      } else {
        var f := g.frontEndProjectiles[id];
        f := f.(x := f.x + b.velocity.x);
        f := f.(y := f.y + b.velocity.y);
        g.frontEndProjectiles := g.frontEndProjectiles[id := f];
      }
      remaining := remaining - {id};
    }
    ghost var synced := g.frontEndProjectiles;
    var stale := g.frontEndProjectiles.Keys;
    while stale != {}
      invariant backEndProjectiles.Keys <= g.frontEndProjectiles.Keys <= synced.Keys
      invariant forall id :: id in g.frontEndProjectiles && id !in backEndProjectiles ==> id in stale
      invariant forall id :: id in g.frontEndProjectiles ==> g.frontEndProjectiles[id] == synced[id]
      decreases stale
    {
      var id :| id in stale;
      if id !in backEndProjectiles {
        g.frontEndProjectiles := g.frontEndProjectiles - {id};
      }
      stale := stale - {id};
    }
  }

  /**
   * A known projectile that sat where the server had it before a tick stays
   * in step: the server advances it by its velocity (when it survives the
   * tick) and the client adds the same velocity to its copy.
   */
  lemma ProjectileTracksServer(front: map<string, FrontProjectile>, players: map<string, FrontPlayer>,
                               id: string, before: Projectile)
    requires id in front && front[id].x == before.x && front[id].y == before.y
    ensures var f := SyncedProjectile(front, players, id, GameLoop.Advance(before));
      f.x == GameLoop.Advance(before).x && f.y == GameLoop.Advance(before).y
  {
  }

  /** A client enemy after the snapshot entry `b` for `id`: created red, or moved to `b`'s position and velocity. */
  function SyncedEnemy(front: map<string, FrontEnemy>, id: string, b: Enemy): (f: FrontEnemy)
    ensures id !in front ==> f == FrontEnemy(b.x, b.y, b.radius, Named("red"), b.velocity, None)
    ensures id in front ==>
      && f.x == b.x && f.y == b.y && f.velocity == b.velocity
      && f.radius == front[id].radius && f.color == front[id].color && f.health == front[id].health
  {
    if id !in front then FrontEnemy(b.x, b.y, b.radius, Named("red"), b.velocity, None)
    else front[id].(x := b.x, y := b.y, velocity := b.velocity)
  }

  /**
   * updateEnemies: create the enemies first seen (red, no health), copy
   * position and velocity onto the known ones, then delete those the server
   * dropped.
   */
  method UpdateEnemies(g: Game, backEndEnemies: map<string, Enemy>)
    modifies g`enemies
    ensures g.enemies.Keys == backEndEnemies.Keys
    ensures forall id :: id in backEndEnemies ==>
      g.enemies[id] == SyncedEnemy(old(g.enemies), id, backEndEnemies[id])
  {
    ghost var front := g.enemies;
    var remaining := backEndEnemies.Keys;
    while remaining != {}
      invariant remaining <= backEndEnemies.Keys
      invariant g.enemies.Keys == front.Keys + (backEndEnemies.Keys - remaining)
      invariant forall id :: id in g.enemies ==>
        g.enemies[id]
        == if id in backEndEnemies && id !in remaining
           then SyncedEnemy(front, id, backEndEnemies[id])
           else front[id]
      decreases remaining
    {
      var id :| id in remaining;
      var b := backEndEnemies[id];
      if id !in g.enemies {
        g.enemies := g.enemies[id := FrontEnemy(b.x, b.y, b.radius, Named("red"), b.velocity, None)];
      } else {
        var e := g.enemies[id];
        e := e.(x := b.x);
        e := e.(y := b.y);
        e := e.(velocity := b.velocity);
        g.enemies := g.enemies[id := e];
      }
      remaining := remaining - {id};
    }
    ghost var synced := g.enemies;
    var stale := g.enemies.Keys;
    while stale != {}
      invariant backEndEnemies.Keys <= g.enemies.Keys <= synced.Keys
      invariant forall id :: id in g.enemies && id !in backEndEnemies ==> id in stale
      invariant forall id :: id in g.enemies ==> g.enemies[id] == synced[id]
      decreases stale
    {
      var id :| id in stale;
      if id !in backEndEnemies {
        g.enemies := g.enemies - {id};
      }
      stale := stale - {id};
    }
  }

  /**
   * Nothing on the client ever gives an enemy a health: starting from
   * enemies without one, a snapshot leaves every enemy without one, so
   * enemiesHandler removes none of them; enemies disappear only when the
   * server drops them.
   */
  lemma NoEnemyIsCulled(front: map<string, FrontEnemy>, backEndEnemies: map<string, Enemy>,
                        synced: map<string, FrontEnemy>)
    requires forall id :: id in front ==> front[id].health.None?
    requires synced.Keys == backEndEnemies.Keys
    requires forall id :: id in backEndEnemies ==> synced[id] == SyncedEnemy(front, id, backEndEnemies[id])
    ensures forall id :: id in synced ==> synced[id].health.None?
    ensures (map id | id in synced && !Defeated(synced[id]) :: synced[id]) == synced
  {
    assert forall id :: id in synced ==> synced[id].health.None? by {
      forall id | id in synced
        ensures synced[id].health.None?
      {
        assert id in backEndEnemies;
      }
    }
  }
}
