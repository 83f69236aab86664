/**
 * The obstacle index (server/map/mapLoader.ts): the collision layer of the
 * map is a flat 32×32 tile array, and every non-zero cell becomes a 64×64
 * blocking square whose origin is the cell's pixel position.
 */
module MapLoader {

  /** Pixel origin (top-left corner) of one blocking map cell. */
  datatype Obstacle = Obstacle(x: int, y: int)

  /** Number of cells `setObstacles` looks at: the first 32 × 32 entries. */
  const CELLS: nat := 32 * 32

  /**
   * Whether cell `i` of the layer blocks. JavaScript reads an entry past the
   * end of the array as `undefined`, and `undefined !== 0`, so such a cell
   * blocks as well.
   */
  predicate CellBlocks(layer: seq<int>, i: nat) {
    i >= |layer| || layer[i] != 0
  }

  /** The obstacle pushed for cell `i`: column i mod 32, row i div 32, 64 pixels per cell. */
  function ObstacleAt(i: nat): Obstacle {
    Obstacle((i % 32) * 64, (i / 32) * 64)
  }

  /** The row-major cell index an obstacle origin stands for. */
  function CellOf(o: Obstacle): int {
    (o.y / 64) * 32 + o.x / 64
  }

  /** The obstacles `setObstacles` has pushed after looking at cells 0 .. n-1. */
  function ObstaclesUpTo(layer: seq<int>, n: nat): seq<Obstacle> {
    if n == 0 then []
    else ObstaclesUpTo(layer, n - 1) + (if CellBlocks(layer, n - 1) then [ObstacleAt(n - 1)] else [])
  }

  /** The blocking cells among 0 .. n-1. */
  ghost function BlockedCells(layer: seq<int>, n: nat): set<nat> {
    set i: nat | i < n && CellBlocks(layer, i)
  }

  /** setObstacles: scan the first 1024 cells and push one obstacle per blocking cell. */
  method SetObstacles(layer: seq<int>) returns (obstacles: seq<Obstacle>)
    ensures obstacles == ObstaclesUpTo(layer, CELLS)
    ensures |obstacles| == |BlockedCells(layer, CELLS)|
    ensures forall o :: o in obstacles <==> exists i: nat :: i < CELLS && CellBlocks(layer, i) && o == ObstacleAt(i)
    ensures forall j, k :: 0 <= j < k < |obstacles| ==> CellOf(obstacles[j]) < CellOf(obstacles[k])
  {
    obstacles := [];
    var i := 0;
    while i < CELLS
      invariant 0 <= i <= CELLS
      invariant obstacles == ObstaclesUpTo(layer, i)
    {
      if i >= |layer| || layer[i] != 0 {
        obstacles := obstacles + [ObstacleAt(i)];
      }
      i := i + 1;
    }
    ObstacleCount(layer, CELLS);
    ObstacleMembership(layer, CELLS);
    ObstaclesAscending(layer, CELLS);
  }

  /** ObstacleAt and CellOf are inverse: a cell index is recovered from its obstacle. */
  lemma CellOfObstacleAt(i: nat)
    ensures CellOf(ObstacleAt(i)) == i
  {
    var c, r := i % 32, i / 32;
    assert (c * 64) / 64 == c;
    assert (r * 64) / 64 == r;
  }

  /** An obstacle is present exactly when some blocking cell below n produced it. */
  lemma {:induction false} ObstacleMembership(layer: seq<int>, n: nat)
    ensures forall o :: o in ObstaclesUpTo(layer, n) <==>
      exists i: nat :: i < n && CellBlocks(layer, i) && o == ObstacleAt(i)
  {
    if n > 0 {
      ObstacleMembership(layer, n - 1);
      var prev := ObstaclesUpTo(layer, n - 1);
      forall o | exists i: nat :: i < n && CellBlocks(layer, i) && o == ObstacleAt(i)
        ensures o in ObstaclesUpTo(layer, n)
      {
        var i: nat :| i < n && CellBlocks(layer, i) && o == ObstacleAt(i);
        if i < n - 1 {
          assert o in prev;
        }
      }
    }
  }

  /** The number of obstacles is the number of blocking cells. */
  lemma {:induction false} ObstacleCount(layer: seq<int>, n: nat)
    ensures |ObstaclesUpTo(layer, n)| == |BlockedCells(layer, n)|
  {
    if n == 0 {
      assert BlockedCells(layer, 0) == {};
    } else {
      ObstacleCount(layer, n - 1);
      var prev := BlockedCells(layer, n - 1);
      assert n - 1 !in prev;
      if CellBlocks(layer, n - 1) {
        assert BlockedCells(layer, n) == prev + {n - 1};
      } else {
        assert BlockedCells(layer, n) == prev;
      }
    }
  }

  /** Obstacles come out in strictly increasing (row-major) cell order, each for a cell below n. */
  lemma {:induction false} ObstaclesAscending(layer: seq<int>, n: nat)
    ensures forall k :: 0 <= k < |ObstaclesUpTo(layer, n)| ==>
      0 <= CellOf(ObstaclesUpTo(layer, n)[k]) < n
    ensures forall j, k :: 0 <= j < k < |ObstaclesUpTo(layer, n)| ==>
      CellOf(ObstaclesUpTo(layer, n)[j]) < CellOf(ObstaclesUpTo(layer, n)[k])
  {
    if n > 0 {
      ObstaclesAscending(layer, n - 1);
      CellOfObstacleAt(n - 1);
    }
  }

  /** Hence no two obstacles share an origin. */
  lemma ObstaclesDistinct(layer: seq<int>, n: nat)
    ensures forall j, k :: 0 <= j < k < |ObstaclesUpTo(layer, n)| ==>
      ObstaclesUpTo(layer, n)[j] != ObstaclesUpTo(layer, n)[k]
  {
    ObstaclesAscending(layer, n);
  }

  /** Every obstacle origin is a multiple of 64 between 0 and 1984 on both axes. */
  lemma ObstacleCoordinates(layer: seq<int>, n: nat)
    requires n <= CELLS
    ensures forall o :: o in ObstaclesUpTo(layer, n) ==>
      o.x % 64 == 0 && o.y % 64 == 0 && 0 <= o.x <= 1984 && 0 <= o.y <= 1984
  {
    ObstacleMembership(layer, n);
    forall o | o in ObstaclesUpTo(layer, n)
      ensures o.x % 64 == 0 && o.y % 64 == 0 && 0 <= o.x <= 1984 && 0 <= o.y <= 1984
    {
      var i: nat :| i < n && CellBlocks(layer, i) && o == ObstacleAt(i);
      assert i / 32 <= 31;
    }
  }

  /** A layer whose first n cells are all zero yields no obstacles. */
  lemma {:induction false} ZeroLayerHasNoObstacles(layer: seq<int>, n: nat)
    requires n <= |layer|
    requires forall i :: 0 <= i < n ==> layer[i] == 0
    ensures ObstaclesUpTo(layer, n) == []
  {
    if n > 0 {
      ZeroLayerHasNoObstacles(layer, n - 1);
    }
  }
}
