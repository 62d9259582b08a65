/**
 * Integer rectangles with the accessors and the collision test of pygame's
 * `Rect`, and the truncating conversion Python's `int()` applies to a float.
 */
module Geometry {

  /** A pygame rectangle: top-left corner (x, y), width w and height h, in pixels. */
  datatype Rect = Rect(x: int, y: int, w: nat, h: nat) {

    function Left(): int { x }
    function Right(): int { x + w }
    function Top(): int { y }
    function Bottom(): int { y + h }

    /** pygame's `centerx` and `centery` getters. */
    function CenterX(): int { x + w / 2 }
    function CenterY(): int { y + h / 2 }

    /**
     * pygame's `colliderect`: the two rectangles share at least one pixel.
     * Edges that only touch do not collide, and an empty rectangle collides
     * with nothing.
     */
    predicate CollidesWith(other: Rect) {
      && w > 0 && h > 0 && other.w > 0 && other.h > 0
      && x < other.x + other.w && other.x < x + w
      && y < other.y + other.h && other.y < y + h
    }
  }

  /** The rectangle of size w by h that pygame builds for `center = (cx, cy)`. */
  function CenteredAt(cx: int, cy: int, w: nat, h: nat): (r: Rect)
    ensures r.w == w && r.h == h
    ensures r.CenterX() == cx && r.CenterY() == cy
  {
    Rect(cx - w / 2, cy - h / 2, w, h)
  }

  /** The rectangle of size w by h whose bottom-left corner is (x, bottom). */
  function WithBottomLeft(x: int, bottom: int, w: nat, h: nat): (r: Rect)
    ensures r.w == w && r.h == h
    ensures r.Left() == x && r.Bottom() == bottom
  {
    Rect(x, bottom - h, w, h)
  }

  /**
   * a / 4 rounded toward zero, as Python's `int()` rounds the float a / 4:
   * a velocity kept in quarter pixels converted to whole pixels. (Dafny's
   * own `/` rounds toward minus infinity for negative a.)
   */
  function TruncQuarter(a: int): (q: int)
    ensures 0 <= a ==> 0 <= 4 * q <= a < 4 * q + 4
    ensures a < 0 ==> 4 * q - 4 < a <= 4 * q <= 0
  {
    if a >= 0 then a / 4 else -((-a) / 4)
  }
}
