/**
 * The fixed simulation tick (server/game/gameLoop.ts). Each tick first
 * steps every enemy, then walks the projectiles: each is advanced by its
 * velocity, destroyed on an obstacle or out of bounds, and otherwise tested
 * against every player except its owner; the first player in reach is hit
 * for 20 damage, respawned on death (the shooter, if present, scores), and
 * the projectile is destroyed.
 *
 * The projectile walk is specified by `Run`, a fold of `Step` over the
 * projectile ids in the order `for...in` visits them (ascending, since the
 * ids are integers); `Tick` is proved to compute it.
 */
module GameLoop {
  import opened Wrappers
  import opened Constants
  import opened MapLoader
  import opened Collision
  import opened GameState
  import opened PlayerUtils

  /** The `projectileHit` event: impact position and projectile velocity. */
  datatype HitEffect = HitEffect(x: real, y: real, vx: real, vy: real)

  /**
   * What the projectile walk reads and writes: the player and projectile
   * maps, the remaining random draws, the hit events emitted so far, and
   * whether every respawn search so far found a clear point (a search that
   * runs out of draws stands for the source looping forever; nothing after
   * it happens).
   */
  datatype Pass = Pass(
    players: map<string, Player>,
    projectiles: map<int, Projectile>,
    random: seq<real>,
    hits: seq<HitEffect>,
    completed: bool)

  /** `s` lists every element of `keys` exactly once. */
  ghost predicate Enumerates<K(!new)>(s: seq<K>, keys: set<K>) {
    && (forall i, j :: 0 <= i < j < |s| ==> s[i] != s[j])
    && (forall k :: k in keys <==> k in s)
  }

  predicate Ascending(s: seq<int>) {
    forall i, j :: 0 <= i < j < |s| ==> s[i] < s[j]
  }

  function Advance(p: Projectile): Projectile {
    p.(x := p.x + p.velocity.x, y := p.y + p.velocity.y)
  }

  /** The projectile's (2·radius)-square box with top-left corner at its position hits an obstacle. */
  predicate HitsObstacle(obstacles: seq<Obstacle>, p: Projectile) {
    Blocked(obstacles, p.x, p.y, PROJECTILE_RADIUS * 2.0, PROJECTILE_RADIUS * 2.0)
  }

  /** More than PROJECTILE_RADIUS outside [0, GAMEWIDTH] × [0, GAMEHEIGHT]. */
  predicate OutOfBounds(p: Projectile) {
    || p.x + PROJECTILE_RADIUS < 0.0
    || p.x - PROJECTILE_RADIUS > GAMEWIDTH
    || p.y + PROJECTILE_RADIUS < 0.0
    || p.y - PROJECTILE_RADIUS > GAMEHEIGHT
  }

  /**
   * `Math.hypot(dx, dy) < PROJECTILE_RADIUS + radius`, stated without the
   * square root: the distance is below a reach exactly when the reach is
   * positive and the squared distance is below its square.
   */
  predicate InReach(p: Projectile, q: Player) {
    var dx, dy, reach := p.x - q.x, p.y - q.y, PROJECTILE_RADIUS + q.radius;
    reach > 0.0 && dx * dx + dy * dy < reach * reach
  }

  /** Player `id` is present, in reach, and not the projectile's owner. */
  predicate CanHit(players: map<string, Player>, p: Projectile, id: string) {
    id in players && InReach(p, players[id]) && p.playerId != id
  }

  /** Index in `order` of the first player the projectile can hit (the inner loop's `break`). */
  function FirstHitIndex(players: map<string, Player>, order: seq<string>, p: Projectile): (r: Option<nat>)
    decreases |order|
    ensures r.Some? ==>
      && r.value < |order|
      && CanHit(players, p, order[r.value])
      && forall j :: 0 <= j < r.value ==> !CanHit(players, p, order[j])
    ensures r.None? ==> forall j :: 0 <= j < |order| ==> !CanHit(players, p, order[j])
  {
    if |order| == 0 then None
    else if CanHit(players, p, order[0]) then Some(0)
    else match FirstHitIndex(players, order[1..], p)
      case None => None
      case Some(k) => Some(k + 1)
  }

  /**
   * The player a projectile strikes at this step, if any: the first player
   * in `order` it can hit, once it has moved and neither met a wall nor left
   * the board; nobody when the pass has stalled or the id is gone.
   */
  function Struck(obstacles: seq<Obstacle>, order: seq<string>, s: Pass, id: int): (r: Option<string>)
    ensures r.Some? ==>
      && s.completed && id in s.projectiles
      && !HitsObstacle(obstacles, Advance(s.projectiles[id])) && !OutOfBounds(Advance(s.projectiles[id]))
      && r.value in order && CanHit(s.players, Advance(s.projectiles[id]), r.value)
    ensures (&& r.None? && s.completed && id in s.projectiles
             && !HitsObstacle(obstacles, Advance(s.projectiles[id])) && !OutOfBounds(Advance(s.projectiles[id]))) ==>
      forall j :: 0 <= j < |order| ==> !CanHit(s.players, Advance(s.projectiles[id]), order[j])
  {
    if !s.completed || id !in s.projectiles then None
    else
      var p := Advance(s.projectiles[id]);
      if HitsObstacle(obstacles, p) || OutOfBounds(p) then None
      else match FirstHitIndex(s.players, order, p)
        case None => None
        case Some(k) => Some(order[k])
  }

  function Effect(p: Projectile): HitEffect {
    HitEffect(p.x, p.y, p.velocity.x, p.velocity.y)
  }

  /**
   * Hit resolution: 20 damage; at or below 0 health, respawn and credit the
   * shooter if it is still present; emit the effect and delete the projectile.
   */
  function Strike(obstacles: seq<Obstacle>, s: Pass, id: int, p: Projectile, victim: string): Pass
    requires victim in s.players
  {
    var struck := s.players[victim].(health := s.players[victim].health - 20);
    var players := s.players[victim := struck];
    if struck.health > 0 then
      s.(players := players, projectiles := s.projectiles - {id}, hits := s.hits + [Effect(p)])
    else match SpawnSearch(obstacles, RespawnArea, s.random)
      case None => s.(players := players, completed := false)
      case Some(spawn) =>
        var players := players[victim := struck.(x := spawn.x, y := spawn.y, health := 100)];
        var players :=
          if p.playerId in players
          then players[p.playerId := players[p.playerId].(score := players[p.playerId].score + 1)]
          else players;
        s.(players := players, projectiles := s.projectiles - {id},
           random := s.random[spawn.draws..], hits := s.hits + [Effect(p)])
  }

  /** One iteration of the projectile loop, for projectile `id`. */
  function Step(obstacles: seq<Obstacle>, order: seq<string>, s: Pass, id: int): Pass {
    if !s.completed || id !in s.projectiles then s
    else
      var p := Advance(s.projectiles[id]);
      if HitsObstacle(obstacles, p) || OutOfBounds(p) then s.(projectiles := s.projectiles - {id})
      else match FirstHitIndex(s.players, order, p)
        case None => s.(projectiles := s.projectiles[id := p])
        case Some(k) => Strike(obstacles, s.(projectiles := s.projectiles[id := p]), id, p, order[k])
  }

  /** The projectile loop over `ids`, in order. */
  function Run(obstacles: seq<Obstacle>, order: seq<string>, s: Pass, ids: seq<int>): Pass
    decreases |ids|
  {
    if ids == [] then s
    else Step(obstacles, order, Run(obstacles, order, s, ids[..|ids| - 1]), ids[|ids| - 1])
  }

  /** The inner `for (const playerId in backEndPlayers)` loop with its `break`. */
  method FindTarget(players: map<string, Player>, order: seq<string>, p: Projectile) returns (r: Option<nat>)
    ensures r == FirstHitIndex(players, order, p)
  {
    var i := 0;
    while i < |order|
      invariant 0 <= i <= |order|
      invariant FirstHitIndex(players, order, p) == Shift(FirstHitIndex(players, order[i..], p), i)
    {
      var id := order[i];
      if id in players {
        var q := players[id];
        var dx, dy := p.x - q.x, p.y - q.y;
        var reach := PROJECTILE_RADIUS + q.radius;
        if reach > 0.0 && dx * dx + dy * dy < reach * reach && p.playerId != id {
          return Some(i);
        }
      }
      assert order[i..][1..] == order[i + 1..];
      i := i + 1;
    }
    return None;
  }

  function Shift(r: Option<nat>, n: nat): Option<nat> {
    match r
    case None => None
    case Some(k) => Some(k + n)
  }

  /** The hit branch of the loop body: damage, respawn on death, score, effect, delete. */
  method StrikePlayer(w: World, id: int, p: Projectile, victim: string, hits: seq<HitEffect>)
    returns (completed: bool, hits': seq<HitEffect>)
    requires w.Valid() && victim in w.players
    modifies w`players, w`projectiles, w`random
    ensures w.WellFormed() && (completed ==> w.Valid())
    ensures Pass(w.players, w.projectiles, w.random, hits', completed)
      == Strike(w.obstacles, Pass(old(w.players), old(w.projectiles), old(w.random), hits, true), id, p, victim)
  {
    var struck := w.players[victim];
    ghost var players0 := w.players;
    w.players := w.players[victim := struck.(health := struck.health - 20)];
    if w.players[victim].health <= 0 {
      var respawned := ResetPlayer(w, victim);
      if !respawned {
        return false, hits;
      }
      assert w.players == players0[victim := w.players[victim]];
      HealthKeptBy(players0, victim, w.players[victim]);
      if p.playerId in w.players {
        var shooter := w.players[p.playerId];
        HealthKeptBy(w.players, p.playerId, shooter.(score := shooter.score + 1));
        w.players := w.players[p.playerId := shooter.(score := shooter.score + 1)];
      }
    } else {
      HealthKeptBy(players0, victim, w.players[victim]);
    }
    hits' := hits + [HitEffect(p.x, p.y, p.velocity.x, p.velocity.y)];
    w.projectiles := w.projectiles - {id};
    completed := true;
  }

  /** One pass of the projectile loop's body. */
  method StepProjectile(w: World, order: seq<string>, id: int, hits: seq<HitEffect>)
    returns (completed: bool, hits': seq<HitEffect>)
    requires w.Valid()
    modifies w`players, w`projectiles, w`random
    ensures w.WellFormed() && (completed ==> w.Valid())
    ensures Pass(w.players, w.projectiles, w.random, hits', completed)
      == Step(w.obstacles, order, Pass(old(w.players), old(w.projectiles), old(w.random), hits, true), id)
  {
    completed, hits' := true, hits;
    if id !in w.projectiles {
      return;
    }
    var p := Advance(w.projectiles[id]);
    w.projectiles := w.projectiles[id := p];
    var blocked := ObstacleCollision(w.obstacles, p.x, p.y, PROJECTILE_RADIUS * 2.0, PROJECTILE_RADIUS * 2.0);
    if blocked {
      w.projectiles := w.projectiles - {id};
      return;
    }
    if p.x + PROJECTILE_RADIUS < 0.0 || p.x - PROJECTILE_RADIUS > GAMEWIDTH
       || p.y + PROJECTILE_RADIUS < 0.0 || p.y - PROJECTILE_RADIUS > GAMEHEIGHT
    {
      w.projectiles := w.projectiles - {id};
      return;
    }
    var target := FindTarget(w.players, order, p);
    if target.Some? {
      completed, hits' := StrikePlayer(w, id, p, order[target.value], hits);
    }
  }

  /**
   * The tick body: apply the enemy step to every enemy, then run the
   * projectile loop over the ids in ascending order with players visited in
   * `playerOrder`. Returns the `projectileHit` events and whether the tick
   * ran to its end.
   */
  method Tick(w: World, updateEnemy: Enemy -> Enemy, enemyOrder: seq<int>,
              projectileOrder: seq<int>, playerOrder: seq<string>)
    returns (completed: bool, hits: seq<HitEffect>)
    requires w.Valid()
    requires Enumerates(enemyOrder, w.enemies.Keys)
    requires Ascending(projectileOrder) && forall id :: id in w.projectiles <==> id in projectileOrder
    requires Enumerates(playerOrder, w.players.Keys)
    modifies w`enemies, w`players, w`projectiles, w`random
    ensures w.WellFormed() && (completed ==> w.Valid())
    ensures w.enemies == map id | id in old(w.enemies) :: updateEnemy(old(w.enemies)[id])
    ensures var r := Run(w.obstacles, playerOrder,
                         Pass(old(w.players), old(w.projectiles), old(w.random), [], true), projectileOrder);
      && w.players == r.players && w.projectiles == r.projectiles && w.random == r.random
      && hits == r.hits && completed == r.completed
  {
    StepEnemies(w, updateEnemy, enemyOrder);
    completed, hits := StepProjectiles(w, projectileOrder, playerOrder);
  }

  /** The enemy loop: every enemy becomes the enemy step of itself. */
  method StepEnemies(w: World, updateEnemy: Enemy -> Enemy, enemyOrder: seq<int>)
    requires w.Valid()
    requires Enumerates(enemyOrder, w.enemies.Keys)
    modifies w`enemies
    ensures w.Valid()
    ensures w.enemies == map id | id in old(w.enemies) :: updateEnemy(old(w.enemies)[id])
  {
    ghost var enemies0 := w.enemies;
    var i := 0;
    while i < |enemyOrder|
      invariant 0 <= i <= |enemyOrder|
      invariant w.Valid() && w.enemies.Keys == enemies0.Keys
      invariant forall id :: id in enemies0 ==>
        w.enemies[id] == if id in enemyOrder[..i] then updateEnemy(enemies0[id]) else enemies0[id]
    {
      var id := enemyOrder[i];
      w.enemies := w.enemies[id := updateEnemy(w.enemies[id])];
      i := i + 1;
    }
    assert enemyOrder[..i] == enemyOrder;
  }

  /** The projectile loop, proved to compute `Run` over the ids in order. */
  method StepProjectiles(w: World, projectileOrder: seq<int>, playerOrder: seq<string>)
    returns (completed: bool, hits: seq<HitEffect>)
    requires w.Valid()
    modifies w`players, w`projectiles, w`random
    ensures w.WellFormed() && (completed ==> w.Valid())
    ensures var r := Run(w.obstacles, playerOrder,
                         Pass(old(w.players), old(w.projectiles), old(w.random), [], true), projectileOrder);
      && w.players == r.players && w.projectiles == r.projectiles && w.random == r.random
      && hits == r.hits && completed == r.completed
  {
    ghost var start := Pass(w.players, w.projectiles, w.random, [], true);
    completed, hits := true, [];
    var i := 0;
    while i < |projectileOrder|
      invariant 0 <= i <= |projectileOrder|
      invariant w.Valid()
      invariant Run(w.obstacles, playerOrder, start, projectileOrder[..i])
        == Pass(w.players, w.projectiles, w.random, hits, true)
    {
      assert projectileOrder[..i + 1][..i] == projectileOrder[..i];
      completed, hits := StepProjectile(w, playerOrder, projectileOrder[i], hits);
      if !completed {
        RunStopsAfterStall(w.obstacles, playerOrder, start, projectileOrder, i + 1);
        return;
      }
      i := i + 1;
    }
    assert projectileOrder[..i] == projectileOrder;
  }

  /** Once a respawn search has run out of draws, later steps change nothing. */
  lemma {:induction false} RunStopsAfterStall(obstacles: seq<Obstacle>, order: seq<string>, s: Pass, ids: seq<int>, n: nat)
    requires n <= |ids|
    requires !Run(obstacles, order, s, ids[..n]).completed
    ensures Run(obstacles, order, s, ids) == Run(obstacles, order, s, ids[..n])
    decreases |ids|
  {
    if n < |ids| {
      var prefix := ids[..|ids| - 1];
      assert prefix[..n] == ids[..n];
      RunStopsAfterStall(obstacles, order, s, prefix, n);
    } else {
      assert ids[..n] == ids;
    }
  }

  predicate Distinct(ids: seq<int>) {
    forall i, j :: 0 <= i < j < |ids| ==> ids[i] != ids[j]
  }

  /**
   * No tick creates or removes players or creates projectiles; random draws
   * are only consumed from the front, and hit events only appended, at most
   * one per projectile id visited.
   */
  lemma {:induction false} RunShape(obstacles: seq<Obstacle>, order: seq<string>, s: Pass, ids: seq<int>)
    ensures var r := Run(obstacles, order, s, ids);
      && r.players.Keys == s.players.Keys
      && r.projectiles.Keys <= s.projectiles.Keys
      && |r.random| <= |s.random| && r.random == s.random[|s.random| - |r.random|..]
      && |s.hits| <= |r.hits| <= |s.hits| + |ids| && r.hits[..|s.hits|] == s.hits
    decreases |ids|
  {
    if ids != [] {
      var prefix := ids[..|ids| - 1];
      RunShape(obstacles, order, s, prefix);
      StepShape(obstacles, order, Run(obstacles, order, s, prefix), ids[|ids| - 1]);
    }
  }

  lemma StepShape(obstacles: seq<Obstacle>, order: seq<string>, s: Pass, id: int)
    ensures var t := Step(obstacles, order, s, id);
      && t.players.Keys == s.players.Keys
      && t.projectiles.Keys <= s.projectiles.Keys
      && |t.random| <= |s.random| && t.random == s.random[|s.random| - |t.random|..]
      && (t.hits == s.hits || t.hits == s.hits + [Effect(Advance(s.projectiles[id]))])
  {
    if s.completed && id in s.projectiles {
      var p := Advance(s.projectiles[id]);
      if !(HitsObstacle(obstacles, p) || OutOfBounds(p)) {
        match FirstHitIndex(s.players, order, p)
        case None =>
        case Some(k) =>
          var u := s.(projectiles := s.projectiles[id := p]);
          match SpawnSearch(obstacles, RespawnArea, u.random)
          case None =>
          case Some(spawn) =>
            assert s.random[spawn.draws..] == s.random[|s.random| - (|s.random| - spawn.draws)..];
      }
    }
  }

  /** Projectiles whose ids are not visited are left exactly as they were. */
  lemma {:induction false} RunLeavesOthers(obstacles: seq<Obstacle>, order: seq<string>, s: Pass, ids: seq<int>, k: int)
    requires k !in ids
    ensures var r := Run(obstacles, order, s, ids);
      && (k in r.projectiles <==> k in s.projectiles)
      && (k in s.projectiles ==> r.projectiles[k] == s.projectiles[k])
    decreases |ids|
  {
    if ids != [] {
      RunLeavesOthers(obstacles, order, s, ids[..|ids| - 1], k);
    }
  }

  /**
   * After a completed pass every surviving projectile that was visited has
   * moved by exactly one velocity step; the others have not moved.
   */
  lemma {:induction false} RunAdvancesSurvivors(obstacles: seq<Obstacle>, order: seq<string>, s: Pass, ids: seq<int>)
    requires Distinct(ids) && Run(obstacles, order, s, ids).completed
    ensures var r := Run(obstacles, order, s, ids);
      forall k :: k in r.projectiles ==>
        k in s.projectiles
        && r.projectiles[k] == if k in ids then Advance(s.projectiles[k]) else s.projectiles[k]
    decreases |ids|
  {
    if ids != [] {
      var prefix, last := ids[..|ids| - 1], ids[|ids| - 1];
      var before := Run(obstacles, order, s, prefix);
      var r := Step(obstacles, order, before, last);
      assert Run(obstacles, order, s, ids) == r;
      assert before.completed;
      assert Distinct(prefix) by {
        forall i, j | 0 <= i < j < |prefix|
          ensures prefix[i] != prefix[j]
        {
          assert prefix[i] == ids[i] && prefix[j] == ids[j];
        }
      }
      assert last !in prefix by {
        forall i | 0 <= i < |prefix|
          ensures prefix[i] != last
        {
          assert prefix[i] == ids[i];
        }
      }
      RunAdvancesSurvivors(obstacles, order, s, prefix);
      RunLeavesOthers(obstacles, order, s, prefix, last);
      StepAdvances(obstacles, order, before, last);
      forall k | k in r.projectiles
        ensures k in s.projectiles
        ensures r.projectiles[k] == if k in ids then Advance(s.projectiles[k]) else s.projectiles[k]
      {
        assert k in ids <==> k == last || k in prefix by {
          assert ids == prefix + [last];
        }
      }
    }
  }

  /** One completed step moves the visited projectile, if it survives, by its velocity and no other. */
  lemma StepAdvances(obstacles: seq<Obstacle>, order: seq<string>, s: Pass, id: int)
    requires Step(obstacles, order, s, id).completed
    ensures var t := Step(obstacles, order, s, id);
      forall k :: k in t.projectiles ==>
        k in s.projectiles
        && t.projectiles[k] == if k == id then Advance(s.projectiles[k]) else s.projectiles[k]
  {
  }

  /** A completed step keeps every player's health among 20, 40, ..., 100. */
  lemma StepKeepsHealthInRange(obstacles: seq<Obstacle>, order: seq<string>, s: Pass, id: int)
    requires HealthInRange(s.players) && Step(obstacles, order, s, id).completed
    ensures HealthInRange(Step(obstacles, order, s, id).players)
  {
  }

  /** A completed pass keeps every player's health among 20, 40, ..., 100. */
  lemma {:induction false} RunKeepsHealthInRange(obstacles: seq<Obstacle>, order: seq<string>, s: Pass, ids: seq<int>)
    requires HealthInRange(s.players) && Run(obstacles, order, s, ids).completed
    ensures HealthInRange(Run(obstacles, order, s, ids).players)
    decreases |ids|
  {
    if ids != [] {
      var prefix := ids[..|ids| - 1];
      RunKeepsHealthInRange(obstacles, order, s, prefix);
      StepKeepsHealthInRange(obstacles, order, Run(obstacles, order, s, prefix), ids[|ids| - 1]);
    }
  }

  /** Scores never decrease. */
  lemma {:induction false} RunScoresNeverDecrease(obstacles: seq<Obstacle>, order: seq<string>, s: Pass, ids: seq<int>)
    ensures var r := Run(obstacles, order, s, ids);
      forall q :: q in s.players ==> q in r.players && r.players[q].score >= s.players[q].score
    decreases |ids|
  {
    if ids != [] {
      var prefix := ids[..|ids| - 1];
      RunScoresNeverDecrease(obstacles, order, s, prefix);
      RunShape(obstacles, order, s, prefix);
      StepScoresNeverDecrease(obstacles, order, Run(obstacles, order, s, prefix), ids[|ids| - 1]);
    }
  }

  /** One step lowers no score. */
  lemma StepScoresNeverDecrease(obstacles: seq<Obstacle>, order: seq<string>, s: Pass, id: int)
    ensures var t := Step(obstacles, order, s, id);
      forall q :: q in s.players ==> q in t.players && t.players[q].score >= s.players[q].score
  {
  }

  /**
   * Hit resolution for one projectile: the struck player is present, in
   * reach and not the owner; it loses 20 health; if that leaves it above 0
   * nothing else changes; otherwise (once respawned) it is back at 100 on a
   * clear point and the shooter, if present, gains exactly 1 point; either
   * way one hit event is emitted at the advanced position and the projectile
   * is gone.
   */
  lemma StepResolvesHit(obstacles: seq<Obstacle>, order: seq<string>, s: Pass, id: int, victim: string)
    requires Struck(obstacles, order, s, id) == Some(victim)
    ensures var t, p := Step(obstacles, order, s, id), Advance(s.projectiles[id]);
      var before := s.players[victim];
      && victim in s.players && victim != p.playerId && InReach(p, before)
      && t.players.Keys == s.players.Keys
      && (t.completed ==>
            && id !in t.projectiles && t.hits == s.hits + [Effect(p)]
            && (before.health > 20 ==> t.players == s.players[victim := before.(health := before.health - 20)])
            && (before.health <= 20 ==>
                  && t.players[victim] == before.(x := t.players[victim].x, y := t.players[victim].y, health := 100)
                  && !HitboxBlocked(obstacles, t.players[victim].x, t.players[victim].y)
                  && (p.playerId in s.players ==>
                        t.players[p.playerId] == s.players[p.playerId].(score := s.players[p.playerId].score + 1))
                  && forall q :: q in s.players && q != victim && q != p.playerId ==> t.players[q] == s.players[q]))
      && (!t.completed ==> before.health <= 20)
  {
  }

  /** A projectile that lands on an obstacle or leaves the board is removed and hits nobody. */
  lemma StepRemovesBlockedOrOutOfBounds(obstacles: seq<Obstacle>, order: seq<string>, s: Pass, id: int)
    requires s.completed && id in s.projectiles
    requires HitsObstacle(obstacles, Advance(s.projectiles[id])) || OutOfBounds(Advance(s.projectiles[id]))
    ensures Step(obstacles, order, s, id) == s.(projectiles := s.projectiles - {id})
  {
  }

  /**
   * A player that none of the visited projectiles reaches (at their advanced
   * positions) and that fired none of them leaves the tick unchanged.
   */
  lemma {:induction false} RunSparesBystander(obstacles: seq<Obstacle>, order: seq<string>, s: Pass, ids: seq<int>, q: string)
    requires Distinct(ids) && q in s.players
    requires forall id :: id in ids && id in s.projectiles ==>
      s.projectiles[id].playerId != q && !InReach(Advance(s.projectiles[id]), s.players[q])
    ensures var r := Run(obstacles, order, s, ids);
      q in r.players && r.players[q] == s.players[q]
    decreases |ids|
  {
    if ids != [] {
      var prefix, last := ids[..|ids| - 1], ids[|ids| - 1];
      RunSparesBystander(obstacles, order, s, prefix, q);
      RunShape(obstacles, order, s, prefix);
      RunLeavesOthers(obstacles, order, s, prefix, last);
      var before := Run(obstacles, order, s, prefix);
      if before.completed && last in before.projectiles {
        var p := Advance(before.projectiles[last]);
        assert !CanHit(before.players, p, q);
      }
    }
  }

  /**
   * The players a step may change: the one it strikes and, when that hit is
   * lethal, the projectile's owner, who scores.
   */
  function StepTouched(obstacles: seq<Obstacle>, order: seq<string>, s: Pass, id: int): set<string> {
    match Struck(obstacles, order, s, id)
    case None => {}
    case Some(victim) =>
      if s.players[victim].health - 20 <= 0 then {victim, s.projectiles[id].playerId} else {victim}
  }

  /** The players some step of the pass over `ids` strikes or credits with a kill. */
  function Touched(obstacles: seq<Obstacle>, order: seq<string>, s: Pass, ids: seq<int>): set<string>
    decreases |ids|
  {
    if ids == [] then {}
    else
      var prefix := ids[..|ids| - 1];
      Touched(obstacles, order, s, prefix) + StepTouched(obstacles, order, Run(obstacles, order, s, prefix), ids[|ids| - 1])
  }

  /** A step leaves every player it neither strikes nor credits exactly as it was. */
  lemma StepSparesUntouched(obstacles: seq<Obstacle>, order: seq<string>, s: Pass, id: int, q: string)
    requires q in s.players && q !in StepTouched(obstacles, order, s, id)
    ensures var t := Step(obstacles, order, s, id);
      q in t.players && t.players[q] == s.players[q]
  {
    match Struck(obstacles, order, s, id)
    case None =>
    case Some(victim) =>
      StepResolvesHit(obstacles, order, s, id, victim);
  }

  /**
   * The frame of the projectile loop: a player that no projectile strikes
   * and that is not credited with a kill leaves the tick unchanged, whatever
   * shots it has in flight and whoever else is in reach.
   */
  lemma {:induction false} RunSparesUntouched(obstacles: seq<Obstacle>, order: seq<string>, s: Pass, ids: seq<int>, q: string)
    requires q in s.players && q !in Touched(obstacles, order, s, ids)
    ensures var r := Run(obstacles, order, s, ids);
      q in r.players && r.players[q] == s.players[q]
    decreases |ids|
  {
    if ids != [] {
      var prefix := ids[..|ids| - 1];
      RunSparesUntouched(obstacles, order, s, prefix, q);
      StepSparesUntouched(obstacles, order, Run(obstacles, order, s, prefix), ids[|ids| - 1], q);
    }
  }

  /**
   * A completed pass removes one projectile per hit event: the number of
   * live projectiles plus the number of emitted hits never grows.
   */
  lemma {:induction false} RunHitsConsumeProjectiles(obstacles: seq<Obstacle>, order: seq<string>, s: Pass, ids: seq<int>)
    ensures var r := Run(obstacles, order, s, ids);
      r.completed ==> |r.hits| + |r.projectiles| <= |s.hits| + |s.projectiles|
    decreases |ids|
  {
    if ids != [] {
      var prefix, last := ids[..|ids| - 1], ids[|ids| - 1];
      RunHitsConsumeProjectiles(obstacles, order, s, prefix);
      var before := Run(obstacles, order, s, prefix);
      if before.completed && last in before.projectiles {
        assert |before.projectiles - {last}| == |before.projectiles| - 1;
      }
    }
  }

  /**
   * A shot fired from (148, 100) at (8, 0) towards the wall cell at
   * (160, 64): after this step its 8×8 box spans x in [156, 164], overlaps
   * the cell, and the projectile is removed without reaching anyone.
   */
  lemma ProjectileStopsAtWall(players: map<string, Player>, order: seq<string>, random: seq<real>)
    ensures var s := Pass(players, map[1 := Projectile(148.0, 100.0, Velocity(8.0, 0.0), "shooter", PROJECTILE_RADIUS)],
                          random, [], true);
      Step([Obstacle(160, 64)], order, s, 1) == s.(projectiles := map[])
  {
    assert Overlaps(Obstacle(160, 64), 156.0, 100.0, 8.0, 8.0);
  }
}
