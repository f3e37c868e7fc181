/**
 * The cars and trucks: each moves by a fixed velocity every frame and jumps to
 * the opposite edge once it has left the window; the collision test against
 * the kangaroo is an axis-aligned bounding-box overlap.
 */
module Obstacles {
  import opened Settings
  import opened Players

  /** Every attribute of an obstacle, as a value. */
  datatype ObstacleState = ObstacleState(x: int, y: int, speedX: int, speedY: int, width: int, height: int)

  /**
   * One axis of `MovingObstacle.move`: advance by `velocity`; a sprite of `size`
   * that is now entirely before the window (`< -size`) reappears at `extent`,
   * one entirely past it (`> extent`) reappears at `-size`.
   */
  function WrapAxis(pos: int, velocity: int, size: int, extent: int): (r: int)
    ensures -size <= pos + velocity <= extent ==> r == pos + velocity
    ensures pos + velocity < -size ==> r == extent
    ensures -size <= pos + velocity && extent < pos + velocity ==> r == -size
    // the coordinate always ends in the wrap range, whenever that range is not empty
    ensures -size <= extent ==> -size <= r <= extent
  {
    var p := pos + velocity;
    if p < -size then extent
    else if p > extent then -size
    else p
  }

  /** The sprite's coordinates lie in the range `MovingObstacle.move` keeps them in. */
  predicate InTrack(o: ObstacleState)
  {
    -o.width <= o.x <= WINDOW_WIDTH && -o.height <= o.y <= WINDOW_HEIGHT
  }

  /** `MovingObstacle.move`, on values: each axis wraps independently. */
  function MoveObstacle(o: ObstacleState): (r: ObstacleState)
    ensures r.x == WrapAxis(o.x, o.speedX, o.width, WINDOW_WIDTH)
    ensures r.y == WrapAxis(o.y, o.speedY, o.height, WINDOW_HEIGHT)
    ensures r.speedX == o.speedX && r.speedY == o.speedY && r.width == o.width && r.height == o.height
    ensures -o.width <= WINDOW_WIDTH && -o.height <= WINDOW_HEIGHT ==> InTrack(r)
  {
    o.(x := WrapAxis(o.x, o.speedX, o.width, WINDOW_WIDTH),
       y := WrapAxis(o.y, o.speedY, o.height, WINDOW_HEIGHT))
  }

  /** Every obstacle of a list moved once, in place of one another. */
  function MoveAll(obs: seq<ObstacleState>): (r: seq<ObstacleState>)
    ensures |r| == |obs|
    ensures forall k :: 0 <= k < |obs| ==> r[k] == MoveObstacle(obs[k])
  {
    seq(|obs|, k requires 0 <= k < |obs| => MoveObstacle(obs[k]))
  }

  /** An axis-aligned box: the pixels `x <= px < x + width`, `y <= py < y + height`. */
  datatype Box = Box(x: int, y: int, width: int, height: int)

  predicate Contains(b: Box, px: int, py: int)
  {
    b.x <= px < b.x + b.width && b.y <= py < b.y + b.height
  }

  /**
   * The four strict inequalities of `check_collision`, `a` in the role of the obstacle.
   * Two boxes can only overlap when, on each axis, their sizes add up to more than zero.
   */
  predicate Overlaps(a: Box, b: Box)
    ensures Overlaps(a, b) ==> a.width + b.width > 0 && a.height + b.height > 0
  {
    a.x < b.x + b.width && a.x + a.width > b.x && a.y < b.y + b.height && a.y + a.height > b.y
  }

  function ObstacleBox(o: ObstacleState): Box { Box(o.x, o.y, o.width, o.height) }
  function PlayerBox(p: PlayerState): Box { Box(p.x, p.y, p.width, p.height) }

  /** `MovingObstacle.check_collision(player)`, on values. */
  predicate Collides(o: ObstacleState, p: PlayerState)
  {
    Overlaps(ObstacleBox(o), PlayerBox(p))
  }

  /** The test does not depend on which box is the obstacle and which the player. */
  lemma OverlapsSymmetric(a: Box, b: Box)
    ensures Overlaps(a, b) <==> Overlaps(b, a)
  {
  }

  /**
   * For boxes of positive size the four inequalities say exactly that the two
   * boxes share at least one pixel.
   */
  lemma OverlapsIffSharedPixel(a: Box, b: Box)
    requires a.width > 0 && a.height > 0 && b.width > 0 && b.height > 0
    ensures Overlaps(a, b) <==> exists px, py :: Contains(a, px, py) && Contains(b, px, py)
  {
    if Overlaps(a, b) {
      var px := if a.x < b.x then b.x else a.x;
      var py := if a.y < b.y then b.y else a.y;
      assert Contains(a, px, py) && Contains(b, px, py);
    }
  }

  /** Boxes that only touch along an edge (and so also at a corner) do not collide. */
  lemma TouchingBoxesDoNotOverlap(a: Box, b: Box)
    requires a.x + a.width == b.x || b.x + b.width == a.x || a.y + a.height == b.y || b.y + b.height == a.y
    ensures !Overlaps(a, b) && !Overlaps(b, a)
  {
  }

  /** Two concrete cases: far-apart boxes miss, boxes offset by half their size hit. */
  lemma CollisionExamples()
    ensures !Overlaps(Box(0, 0, 10, 10), Box(100, 100, 10, 10))
    ensures Overlaps(Box(5, 5, 10, 10), Box(0, 0, 10, 10))
  {
  }

  /**
   * The numeric part of the obstacle list `main` builds, in the same order: eleven
   * vehicles of positive size, all driving leftwards and none vertically.
   */
  function Layout(): (r: seq<ObstacleState>)
    ensures |r| == 11
    ensures forall k :: 0 <= k < |r| ==> r[k].speedX < 0 && r[k].speedY == 0 && r[k].width > 0 && r[k].height > 0
  {
    [
      ObstacleState(250, 50, -3, 0, 80, 60),
      ObstacleState(-350, 50, -3, 0, 80, 60),
      ObstacleState(550, 50, -3, 0, 80, 60),
      ObstacleState(600, 220, -4, 0, 100, 100),
      ObstacleState(200, 250, -4, 0, 80, 60),
      ObstacleState(400, 480, -4, 0, 80, 60),
      ObstacleState(830, 125, -8, 0, 80, 60),
      ObstacleState(200, 550, -4, 0, 80, 60),
      ObstacleState(600, 530, -4, 0, 100, 100),
      ObstacleState(-350, 600, -5, 0, 80, 60),
      ObstacleState(300, 600, -5, 0, 80, 60)
    ]
  }

  /**
   * The two cars placed at x = -350 start wholly off-screen to the left, so their
   * first move teleports them to the right edge; every car then stays in its track.
   */
  lemma FirstMoveOfLayout()
    ensures !InTrack(Layout()[1]) && !InTrack(Layout()[9])
    ensures MoveAll(Layout())[1].x == WINDOW_WIDTH && MoveAll(Layout())[9].x == WINDOW_WIDTH
    ensures forall k :: 0 <= k < |Layout()| ==> InTrack(MoveAll(Layout())[k])
  {
  }

  /** A car or truck, whose `move` updates its position in place. */
  class MovingObstacle {
    var x: int
    var y: int
    const speedX: int
    const speedY: int
    const width: int
    const height: int

    /** All attributes, as a value. */
    function State(): ObstacleState
      reads this
    {
      ObstacleState(x, y, speedX, speedY, width, height)
    }

    /** `MovingObstacle.__init__`; the size is the one its image is scaled to. */
    constructor (x: int, y: int, speedX: int, speedY: int, width: int, height: int)
      ensures State() == ObstacleState(x, y, speedX, speedY, width, height)
    {
      this.x := x;
      this.y := y;
      this.speedX := speedX;
      this.speedY := speedY;
      this.width := width;
      this.height := height;
    }

    /** `MovingObstacle.move`. */
    method Move()
      modifies this
      ensures State() == MoveObstacle(old(State()))
    {
      x := x + speedX;
      y := y + speedY;
      if x < -width {
        x := WINDOW_WIDTH;
      } else if x > WINDOW_WIDTH {
        x := -width;
      }
      if y < -height {
        y := WINDOW_HEIGHT;
      } else if y > WINDOW_HEIGHT {
        y := -height;
      }
    }

    /** `MovingObstacle.check_collision`. */
    function CheckCollision(player: Player): (r: bool)
      reads this, player
      ensures r <==> Collides(State(), player.State())
    {
      x < player.x + player.width && x + width > player.x &&
      y < player.y + player.height && y + height > player.y
    }
  }
}
