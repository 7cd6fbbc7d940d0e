/** Axis-aligned rectangles and the overlap test the game uses for collisions. */
module Geometry {

  /** A rectangle on the canvas: top-left corner (x, y), y growing downwards, and its size. */
  datatype Rect = Rect(x: real, y: real, width: real, height: real)

  /** Axis-aligned bounding-box overlap. Every comparison is strict, so two
      rectangles that only share an edge do not collide. */
  function Collides(a: Rect, b: Rect): (hit: bool)
    ensures a.x + a.width == b.x ==> !hit
    ensures b.x + b.width == a.x ==> !hit
    ensures a.y + a.height == b.y ==> !hit
    ensures b.y + b.height == a.y ==> !hit
  {
    a.x < b.x + b.width &&
    a.x + a.width > b.x &&
    a.y < b.y + b.height &&
    a.y + a.height > b.y
  }

  /** The order of the arguments does not matter. */
  lemma CollidesSymmetric(a: Rect, b: Rect)
    ensures Collides(a, b) == Collides(b, a)
  {
  }

  /** (px, py) lies strictly inside r. */
  predicate Inside(r: Rect, px: real, py: real)
  {
    r.x < px < r.x + r.width && r.y < py < r.y + r.height
  }

  /** For rectangles of positive size, colliding means sharing an interior point:
      the overlap test agrees with the geometric notion it approximates. */
  lemma CollidesIffSharedPoint(a: Rect, b: Rect)
    requires a.width > 0.0 && a.height > 0.0 && b.width > 0.0 && b.height > 0.0
    ensures Collides(a, b) <==> exists px, py :: Inside(a, px, py) && Inside(b, px, py)
  {
    if Collides(a, b) {
      var left := if a.x < b.x then b.x else a.x;
      var right := if a.x + a.width < b.x + b.width then a.x + a.width else b.x + b.width;
      var top := if a.y < b.y then b.y else a.y;
      var bottom := if a.y + a.height < b.y + b.height then a.y + a.height else b.y + b.height;
      var px, py := (left + right) / 2.0, (top + bottom) / 2.0;
      assert Inside(a, px, py) && Inside(b, px, py);
    }
  }
}
