/**
 * Positions, sizes and the collision engine (`getCollisionEngin`): two predicates over
 * axis-aligned rectangles, plus the range of the script's random integers.
 */
module Geometry {

  /** Pixel coordinates of an entity's top-left corner. */
  datatype Position = Position(x: int, y: int)

  /** The `style` of an entity: its width and height in pixels. */
  datatype Size = Size(width: int, height: int)

  /** Anything the collision engine accepts: an object with a `position` and a `style`. */
  datatype Rect = Rect(position: Position, size: Size)

  /**
   * `hasCollision(rect1, rect2)`: strict overlap on both axes. Two rectangles without
   * positive combined width and height never collide, and two rectangles of positive
   * size placed at the same corner always do.
   */
  predicate HasCollision(a: Rect, b: Rect): (r: bool)
    ensures r ==> a.size.width + b.size.width > 0 && a.size.height + b.size.height > 0
    ensures (a.position == b.position && a.size.width > 0 && a.size.height > 0
             && b.size.width > 0 && b.size.height > 0) ==> r
  {
    && a.position.x < b.position.x + b.size.width
    && a.position.x + a.size.width > b.position.x
    && a.position.y < b.position.y + b.size.height
    && a.size.height + a.position.y > b.position.y
  }

  /**
   * `inCanvas(snake, canvas)`: the left and top edges lie past the canvas position, the
   * right and bottom edges strictly before the canvas width and height. On a canvas at
   * the origin, an entity of non-negative size that passes has both corners strictly
   * inside the canvas.
   */
  predicate InCanvas(e: Rect, canvas: Rect): (r: bool)
    ensures r && canvas.position == Position(0, 0) && e.size.width >= 0 && e.size.height >= 0 ==>
      && Inside(canvas, e.position.x, e.position.y)
      && Inside(canvas, e.position.x + e.size.width, e.position.y + e.size.height)
  {
    && e.position.x > canvas.position.x
    && e.position.x + e.size.width < canvas.size.width
    && e.position.y > canvas.position.y
    && e.position.y + e.size.height < canvas.size.height
  }

  /** The pixel (px, py) lies in the half-open rectangle r. */
  predicate Covers(r: Rect, px: int, py: int)
  {
    && r.position.x <= px < r.position.x + r.size.width
    && r.position.y <= py < r.position.y + r.size.height
  }

  /** The point (px, py) lies on or within the edges of r. */
  predicate Spans(r: Rect, px: int, py: int)
  {
    && r.position.x <= px <= r.position.x + r.size.width
    && r.position.y <= py <= r.position.y + r.size.height
  }

  /** The point (px, py) lies strictly inside r. */
  predicate Inside(r: Rect, px: int, py: int)
  {
    && r.position.x < px < r.position.x + r.size.width
    && r.position.y < py < r.position.y + r.size.height
  }

  /**
   * The integers `getRandomNumber(max)` yields: `Math.random() * max` lies in [0, max) or
   * (max, 0], and `parseInt` truncates it toward zero. So the integer is 0 or has the
   * sign of max and a smaller magnitude.
   */
  predicate RandomBelow(max: int, v: int): (r: bool)
    ensures r <==> v == 0 || 0 < v < max || max < v < 0
  {
    if max > 0 then 0 <= v < max else max < v <= 0 || v == 0
  }

  /** The order of the two arguments of hasCollision does not matter. */
  lemma CollisionIsSymmetric(a: Rect, b: Rect)
    ensures HasCollision(a, b) == HasCollision(b, a)
  {
  }

  /** Rectangles that only share an edge do not collide. */
  lemma EdgeContactIsNoCollision(a: Rect, b: Rect)
    requires || a.position.x + a.size.width == b.position.x
             || b.position.x + b.size.width == a.position.x
             || a.position.y + a.size.height == b.position.y
             || b.position.y + b.size.height == a.position.y
    ensures !HasCollision(a, b)
  {
  }

  /**
   * For rectangles of positive size, hasCollision holds exactly when some pixel belongs
   * to both of them.
   */
  lemma CollisionIsSharedPixel(a: Rect, b: Rect)
    requires a.size.width > 0 && a.size.height > 0
    requires b.size.width > 0 && b.size.height > 0
    ensures HasCollision(a, b) <==> exists px, py :: Covers(a, px, py) && Covers(b, px, py)
  {
    if HasCollision(a, b) {
      var px := if a.position.x < b.position.x then b.position.x else a.position.x;
      var py := if a.position.y < b.position.y then b.position.y else a.position.y;
      assert Covers(a, px, py) && Covers(b, px, py);
    }
    if exists px, py :: Covers(a, px, py) && Covers(b, px, py) {
      var px, py :| Covers(a, px, py) && Covers(b, px, py);
      assert HasCollision(a, b);
    }
  }

  /**
   * On a canvas placed at the origin, inCanvas holds exactly when every point of the
   * entity, edges included, lies strictly inside the canvas.
   */
  lemma InCanvasIsInterior(r: Rect, canvas: Rect)
    requires canvas.position == Position(0, 0)
    requires r.size.width >= 0 && r.size.height >= 0
    ensures InCanvas(r, canvas) <==> forall px, py :: Spans(r, px, py) ==> Inside(canvas, px, py)
  {
    if forall px, py :: Spans(r, px, py) ==> Inside(canvas, px, py) {
      assert Spans(r, r.position.x, r.position.y);
      assert Spans(r, r.position.x + r.size.width, r.position.y + r.size.height);
    }
  }
}
