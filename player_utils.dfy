/**
 * Safe-spawn search and respawn (server/utils/playerUtils.ts). A candidate
 * point is drawn from two successive `Math.random` results; the search
 * repeats while the player's 32×64 hitbox at the candidate hits an obstacle.
 * The source loops without bound; here the draws are a finite prefix of the
 * random stream, and a search that exhausts it reports that no clear point
 * was found.
 */
module PlayerUtils {
  import opened Wrappers
  import opened Constants
  import opened MapLoader
  import opened Collision
  import opened GameState

  /** The rectangle a candidate is drawn from: x = width·r + xOffset, y = height·r' + yOffset. */
  datatype SpawnArea = SpawnArea(width: real, xOffset: real, height: real, yOffset: real)

  /** resetPlayer's area: x in [50, GAMEWIDTH - 50), y in [100, GAMEHEIGHT - 100). */
  const RespawnArea: SpawnArea := SpawnArea(GAMEWIDTH - 100.0, 50.0, GAMEHEIGHT - 200.0, 100.0)

  /** A clear spawn point and how many random draws the search consumed to find it. */
  datatype Spawn = Spawn(x: real, y: real, draws: nat)

  function CandidateX(area: SpawnArea, r: real): real {
    area.width * r + area.xOffset
  }

  function CandidateY(area: SpawnArea, r: real): real {
    area.height * r + area.yOffset
  }

  /** The candidate drawn from draws[i] (x) and draws[i + 1] (y) has a blocked hitbox. */
  predicate CandidateBlocked(obstacles: seq<Obstacle>, area: SpawnArea, draws: seq<real>, i: nat)
    requires i + 1 < |draws|
  {
    HitboxBlocked(obstacles, CandidateX(area, draws[i]), CandidateY(area, draws[i + 1]))
  }

  /** Moves a search result `n` draws further along the stream. */
  function Shifted(r: Option<Spawn>, n: nat): Option<Spawn> {
    match r
    case None => None
    case Some(s) => Some(s.(draws := s.draws + n))
  }

  /**
   * The do...while search over a stream of draws. A result is the FIRST
   * candidate whose hitbox is clear; no result means every complete pair of
   * draws gave a blocked candidate.
   */
  function SpawnSearch(obstacles: seq<Obstacle>, area: SpawnArea, draws: seq<real>): (r: Option<Spawn>)
    decreases |draws|
    ensures r.Some? ==>
      && 2 <= r.value.draws <= |draws| && r.value.draws % 2 == 0
      && r.value.x == CandidateX(area, draws[r.value.draws - 2])
      && r.value.y == CandidateY(area, draws[r.value.draws - 1])
      && !HitboxBlocked(obstacles, r.value.x, r.value.y)
      && forall i: nat :: i % 2 == 0 && i + 2 < r.value.draws ==> CandidateBlocked(obstacles, area, draws, i)
    ensures r.None? ==>
      forall i: nat :: i % 2 == 0 && i + 1 < |draws| ==> CandidateBlocked(obstacles, area, draws, i)
  {
    if |draws| < 2 then None
    else
      var x := CandidateX(area, draws[0]);
      var y := CandidateY(area, draws[1]);
      if !HitboxBlocked(obstacles, x, y) then Some(Spawn(x, y, 2))
      else
        var rest := SpawnSearch(obstacles, area, draws[2..]);
        assert forall i: nat :: 2 <= i && i + 1 < |draws| ==>
          CandidateBlocked(obstacles, area, draws, i) == CandidateBlocked(obstacles, area, draws[2..], i - 2);
        Shifted(rest, 2)
  }

  /** The do...while loop of resetPlayer (and of initGame), reading the draws in order. */
  method FindSpawn(obstacles: seq<Obstacle>, area: SpawnArea, draws: seq<real>) returns (r: Option<Spawn>)
    ensures r == SpawnSearch(obstacles, area, draws)
  {
    var i := 0;
    while i + 2 <= |draws|
      invariant 0 <= i <= |draws| && i % 2 == 0
      invariant SpawnSearch(obstacles, area, draws) == Shifted(SpawnSearch(obstacles, area, draws[i..]), i)
      decreases |draws| - i
    {
      var x := CandidateX(area, draws[i]);
      var y := CandidateY(area, draws[i + 1]);
      var blocked := ObstacleCollision(obstacles, x - 16.0, y - 32.0, 32.0, 64.0);
      if !blocked {
        return Some(Spawn(x, y, i + 2));
      }
      assert draws[i..][2..] == draws[i + 2..];
      i := i + 2;
    }
    return None;
  }

  /** A draw in [0, 1) puts the candidate inside the area's half-open rectangle. */
  lemma CandidateInArea(area: SpawnArea, rx: real, ry: real)
    requires area.width > 0.0 && area.height > 0.0
    requires UnitInterval(rx) && UnitInterval(ry)
    ensures area.xOffset <= CandidateX(area, rx) < area.xOffset + area.width
    ensures area.yOffset <= CandidateY(area, ry) < area.yOffset + area.height
  {
    ScaleBelow(area.width, rx);
    ScaleBelow(area.height, ry);
    var dx, dy := area.width * rx, area.height * ry;
    assert CandidateX(area, rx) == area.xOffset + dx;
    assert CandidateY(area, ry) == area.yOffset + dy;
  }

  lemma ScaleBelow(a: real, r: real)
    requires a > 0.0 && 0.0 <= r < 1.0
    ensures 0.0 <= a * r < a
  {
    assert a * (1.0 - r) > 0.0;
  }

  /** A respawn point found in a stream of [0, 1) draws lies in [50, W - 50) × [100, H - 100) and is clear. */
  lemma RespawnInBounds(obstacles: seq<Obstacle>, draws: seq<real>)
    requires forall i :: 0 <= i < |draws| ==> UnitInterval(draws[i])
    requires SpawnSearch(obstacles, RespawnArea, draws).Some?
    ensures var s := SpawnSearch(obstacles, RespawnArea, draws).value;
      && 50.0 <= s.x < GAMEWIDTH - 50.0 && 100.0 <= s.y < GAMEHEIGHT - 100.0
      && !HitboxBlocked(obstacles, s.x, s.y)
  {
    var s := SpawnSearch(obstacles, RespawnArea, draws).value;
    CandidateInArea(RespawnArea, draws[s.draws - 2], draws[s.draws - 1]);
  }

  /**
   * resetPlayer: search for a clear point, then set x, y and health := 100.
   * Score, sequence number, name, angle, radius and colour are untouched.
   * When the draws run out first the source would still be looping; the
   * model then reports `respawned == false` and leaves the world as it was.
   */
  method ResetPlayer(w: World, id: string) returns (respawned: bool)
    requires w.WellFormed() && id in w.players
    modifies w`players, w`random
    ensures w.WellFormed()
    ensures var s := SpawnSearch(w.obstacles, RespawnArea, old(w.random));
      && respawned == s.Some?
      && (respawned ==>
            && w.players == old(w.players)[id := old(w.players)[id].(x := s.value.x, y := s.value.y, health := 100)]
            && w.random == old(w.random)[s.value.draws..])
      && (!respawned ==> w.players == old(w.players) && w.random == old(w.random))
    ensures respawned ==>
      && !HitboxBlocked(w.obstacles, w.players[id].x, w.players[id].y)
      && w.players[id].health == 100
      && 50.0 <= w.players[id].x < GAMEWIDTH - 50.0
      && 100.0 <= w.players[id].y < GAMEHEIGHT - 100.0
  {
    var found := FindSpawn(w.obstacles, RespawnArea, w.random);
    if found.None? {
      return false;
    }
    RespawnInBounds(w.obstacles, w.random);
    var p := w.players[id];
    w.players := w.players[id := p.(x := found.value.x, y := found.value.y, health := 100)];
    w.random := w.random[found.value.draws..];
    respawned := true;
  }
}
