/**
 * Rectangle-versus-obstacle test (server/game/collision.ts). A query
 * rectangle collides with an obstacle when the two overlap with STRICT
 * inequalities on both axes, so rectangles that only share an edge do not
 * collide.
 */
module Collision {
  import opened Constants
  import opened MapLoader

  /** The separating-axis test of collision.ts for one obstacle. */
  predicate Overlaps(o: Obstacle, x: real, y: real, width: real, height: real) {
    && x < (o.x + OBSTACLE_WIDTH) as real
    && x + width > o.x as real
    && y < (o.y + OBSTACLE_HEIGHT) as real
    && y + height > o.y as real
  }

  /** Some obstacle of the list overlaps the rectangle. */
  predicate Blocked(obstacles: seq<Obstacle>, x: real, y: real, width: real, height: real) {
    exists o :: o in obstacles && Overlaps(o, x, y, width, height)
  }

  /** The 32×64 player hitbox centred on (x, y), as the handlers and resetPlayer test it. */
  predicate HitboxBlocked(obstacles: seq<Obstacle>, x: real, y: real) {
    Blocked(obstacles, x - 16.0, y - 32.0, 32.0, 64.0)
  }

  /**
   * obstacleCollision: scan the obstacles in order and return true at the
   * first one that overlaps. It only reads the obstacle list.
   */
  method ObstacleCollision(obstacles: seq<Obstacle>, x: real, y: real, width: real, height: real)
    returns (hit: bool)
    ensures hit <==> Blocked(obstacles, x, y, width, height)
    ensures obstacles == [] ==> !hit
  {
    var i := 0;
    while i < |obstacles|
      invariant 0 <= i <= |obstacles|
      invariant forall j :: 0 <= j < i ==> !Overlaps(obstacles[j], x, y, width, height)
    {
      var o := obstacles[i];
      if x < (o.x + OBSTACLE_WIDTH) as real && x + width > o.x as real
         && y < (o.y + OBSTACLE_HEIGHT) as real && y + height > o.y as real
      {
        assert Overlaps(o, x, y, width, height);
        return true;
      }
      i := i + 1;
    }
    return false;
  }

  /** A rectangle that only touches an obstacle's edge does not overlap it. */
  lemma EdgeContactIsClear(o: Obstacle, x: real, y: real, width: real, height: real)
    requires || x + width == o.x as real
             || x == (o.x + OBSTACLE_WIDTH) as real
             || y + height == o.y as real
             || y == (o.y + OBSTACLE_HEIGHT) as real
    ensures !Overlaps(o, x, y, width, height)
  {
  }

  /** The result depends only on which obstacles are present, not on their order. */
  lemma BlockedIgnoresOrder(a: seq<Obstacle>, b: seq<Obstacle>, x: real, y: real, width: real, height: real)
    requires multiset(a) == multiset(b)
    ensures Blocked(a, x, y, width, height) <==> Blocked(b, x, y, width, height)
  {
    forall o
      ensures o in a <==> o in b
    {
      assert o in a <==> o in multiset(a);
      assert o in b <==> o in multiset(b);
    }
  }

  /** A rectangle containing a colliding rectangle collides as well. */
  lemma BlockedGrows(obstacles: seq<Obstacle>, x: real, y: real, width: real, height: real,
                     outerX: real, outerY: real, outerWidth: real, outerHeight: real)
    requires outerX <= x && x + width <= outerX + outerWidth
    requires outerY <= y && y + height <= outerY + outerHeight
    requires Blocked(obstacles, x, y, width, height)
    ensures Blocked(obstacles, outerX, outerY, outerWidth, outerHeight)
  {
    var o :| o in obstacles && Overlaps(o, x, y, width, height);
    assert Overlaps(o, outerX, outerY, outerWidth, outerHeight);
  }
}
