/** Axis-aligned rectangles and the game's collision test. Screen
    coordinates: x grows to the right, y grows downwards. */
module Geometry {

  /** A rectangle given by its top-left corner and its size. Every entity
      of the game (player, platform, coin, enemy) is tested through one. */
  datatype Rect = Rect(x: real, y: real, width: real, height: real)

  /** `checkCollision`: the two rectangles overlap strictly on both axes. */
  predicate Overlaps(a: Rect, b: Rect)
  {
    a.x < b.x + b.width &&
    a.x + a.width > b.x &&
    a.y < b.y + b.height &&
    a.y + a.height > b.y
  }

  /** A rectangle with a non-empty interior. */
  predicate Proper(r: Rect)
  {
    r.width > 0.0 && r.height > 0.0
  }

  /** The point (px, py) lies strictly inside r. */
  ghost predicate Interior(r: Rect, px: real, py: real)
  {
    r.x < px < r.x + r.width && r.y < py < r.y + r.height
  }

  function Max(a: real, b: real): real { if a < b then b else a }

  function Min(a: real, b: real): real { if a < b then a else b }

  /** The test is symmetric: the order of its arguments does not matter. */
  lemma OverlapsSymmetric(a: Rect, b: Rect)
    ensures Overlaps(a, b) == Overlaps(b, a)
  {
  }

  /** Rectangles that only share an edge do not collide. */
  lemma EdgeContactIsNoOverlap(a: Rect, b: Rect)
    requires a.x + a.width == b.x || b.x + b.width == a.x ||
             a.y + a.height == b.y || b.y + b.height == a.y
    ensures !Overlaps(a, b)
  {
  }

  /** Reference meaning of the test: two proper rectangles collide exactly
      when some point lies strictly inside both of them. */
  lemma OverlapsIffSharedInterior(a: Rect, b: Rect)
    requires Proper(a) && Proper(b)
    ensures Overlaps(a, b) <==> exists px, py :: Interior(a, px, py) && Interior(b, px, py)
  {
    if Overlaps(a, b) {
      var left, right := Max(a.x, b.x), Min(a.x + a.width, b.x + b.width);
      var top, bottom := Max(a.y, b.y), Min(a.y + a.height, b.y + b.height);
      var px, py := (left + right) / 2.0, (top + bottom) / 2.0;
      assert Interior(a, px, py) && Interior(b, px, py);
    }
  }
}
