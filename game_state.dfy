/**
 * The authoritative world state (server/state/gameState.ts and the shared
 * types of types.ts): the id-keyed player, projectile and enemy maps, the two
 * independent id counters, the obstacle list built at startup, and the
 * process's stream of `Math.random` results.
 */
module GameState {
  import opened Constants
  import opened MapLoader

  datatype Velocity = Velocity(x: real, y: real)

  /** A colour: the server draws an `hsl(...)` hue for players; enemies are named colours. */
  datatype Color = Hsl(hue: real) | Named(name: string)

  /** A joined player, keyed by its session id. `sequenceNumber` is the last movement input applied. */
  datatype Player = Player(
    x: real, y: real,
    color: Color,
    sequenceNumber: int,
    score: int,
    username: string,
    health: int,
    angle: real,
    radius: real)

  /** A shot in flight; `playerId` is the session id of the socket that fired it. */
  datatype Projectile = Projectile(x: real, y: real, velocity: Velocity, playerId: string, radius: real)

  /** An enemy. `targetTimer` is set at startup although types.ts does not declare it. */
  datatype Enemy = Enemy(
    x: real, y: real,
    color: Color,
    health: int,
    radius: real,
    velocity: Velocity,
    targetPlayerId: string,
    targetTimer: int)

  /** The enemy inserted at startup under the first enemy id. */
  const InitialEnemy: Enemy :=
    Enemy(500.0, 500.0, Named("red"), 100, 15.0, Velocity(0.0, 10.0), "", ENEMY_TARGET_RETARGET_INTERVAL)

  /** Every id in use is positive and no larger than the counter that handed it out. */
  ghost predicate IdsIssued<T>(m: map<int, T>, counter: int) {
    forall id :: id in m ==> 0 < id <= counter
  }

  /** Every player's health is one of 20, 40, ..., 100: it starts at 100 and moves in steps of 20. */
  ghost predicate HealthInRange(players: map<string, Player>) {
    forall id :: id in players ==> 0 < players[id].health <= 100 && players[id].health % 20 == 0
  }

  /** Storing a record whose health is one of 20, 40, ..., 100 keeps the health invariant. */
  lemma HealthKeptBy(players: map<string, Player>, id: string, p: Player)
    requires HealthInRange(players) && 0 < p.health <= 100 && p.health % 20 == 0
    ensures HealthInRange(players[id := p])
  {
  }

  /** A value `Math.random` can return. */
  predicate UnitInterval(r: real) {
    0.0 <= r < 1.0
  }

  class World {
    var players: map<string, Player>
    var projectiles: map<int, Projectile>
    var projectileIdCounter: int
    var enemies: map<int, Enemy>
    var enemyIdCounter: int
    /** The obstacles built from the collision layer at startup; never changed. */
    const obstacles: seq<Obstacle>
    /** The results `Math.random` will return next, in order (a finite prefix of the stream). */
    var random: seq<real>

    /**
     * The world invariant: the structural part, and every player's health
     * among 20, 40, ..., 100. Only the inside of a hit resolution, between
     * the damage and the respawn, breaks the health part.
     */
    ghost predicate Valid()
      reads this
    {
      WellFormed() && HealthInRange(players)
    }

    /** Ids in use were handed out by the counters, and random draws lie in [0, 1). */
    ghost predicate WellFormed()
      reads this
    {
      && projectileIdCounter >= 0
      && enemyIdCounter >= 0
      && IdsIssued(projectiles, projectileIdCounter)
      && IdsIssued(enemies, enemyIdCounter)
      && (forall i :: 0 <= i < |random| ==> UnitInterval(random[i]))
    }

    /**
     * Module initialisation: both counters start at 0, the obstacles come
     * from the collision layer, and one enemy is inserted under the id
     * `getNextEnemyId` returns.
     */
    constructor (collisionLayer: seq<int>, random: seq<real>)
      requires forall i :: 0 <= i < |random| ==> UnitInterval(random[i])
      ensures Valid()
      ensures obstacles == ObstaclesUpTo(collisionLayer, CELLS)
      ensures players == map[] && projectiles == map[]
      ensures projectileIdCounter == 0 && enemyIdCounter == 1
      ensures enemies == map[1 := InitialEnemy]
      ensures this.random == random
    {
      var built := SetObstacles(collisionLayer);
      obstacles := built;
      players := map[];
      projectiles := map[];
      projectileIdCounter := 0;
      enemies := map[];
      enemyIdCounter := 0;
      this.random := random;
      new;
      var initialEnemyId := NextEnemyId();
      enemies := enemies[initialEnemyId := InitialEnemy];
    }

    /** getNextProjectileId: increment the counter, then return its new value. */
    method NextProjectileId() returns (id: int)
      requires Valid()
      modifies this`projectileIdCounter
      ensures Valid()
      ensures projectileIdCounter == old(projectileIdCounter) + 1 && id == projectileIdCounter
      ensures id > 0 && id !in projectiles
      ensures enemyIdCounter == old(enemyIdCounter)
    {
      projectileIdCounter := projectileIdCounter + 1;
      id := projectileIdCounter;
    }

    /** getNextEnemyId: increment the enemy counter, then return its new value. */
    method NextEnemyId() returns (id: int)
      requires Valid()
      modifies this`enemyIdCounter
      ensures Valid()
      ensures enemyIdCounter == old(enemyIdCounter) + 1 && id == enemyIdCounter
      ensures id > 0 && id !in enemies
      ensures projectileIdCounter == old(projectileIdCounter)
    {
      enemyIdCounter := enemyIdCounter + 1;
      id := enemyIdCounter;
    }
  }
}
