/**
 * The part of pygame.Rect the game relies on: integer rectangles, inflate and
 * colliderect (pygame 2 semantics).
 */
module Geometry {

  /** A pygame.Rect: integer left, top, width and height. */
  datatype Rect = Rect(x: int, y: int, w: int, h: int) {
    function Right(): int { x + w }
    function Bottom(): int { y + h }
  }

  function Min(a: int, b: int): int { if a <= b then a else b }
  function Max(a: int, b: int): int { if a <= b then b else a }

  /** Division of a C `int` by 2, which truncates toward zero. */
  function HalfTowardZero(d: int): (r: int)
    ensures d >= 0 ==> 0 <= 2 * r <= d < 2 * r + 2
    ensures d < 0 ==> 2 * r - 2 < d <= 2 * r <= 0
  {
    if d >= 0 then d / 2 else -((-d) / 2)
  }

  /**
   * Rect.inflate(dx, dy): the size grows by (dx, dy) and the corner moves by
   * half of that, so an even amount keeps the centre where it was.
   */
  function Inflate(r: Rect, dx: int, dy: int): (s: Rect)
    ensures s.w == r.w + dx && s.h == r.h + dy
    ensures dx % 2 == 0 ==> s.x + s.Right() == r.x + r.Right()
    ensures dy % 2 == 0 ==> s.y + s.Bottom() == r.y + r.Bottom()
  {
    Rect(r.x - HalfTowardZero(dx), r.y - HalfTowardZero(dy), r.w + dx, r.h + dy)
  }

  /**
   * Rect.colliderect: an empty rectangle collides with nothing; otherwise the
   * two spans must overlap strictly on both axes (negative sizes are read as
   * spanning to the left of / above the corner).
   */
  predicate Collide(a: Rect, b: Rect)
  {
    && a.w != 0 && a.h != 0 && b.w != 0 && b.h != 0
    && Min(a.x, a.Right()) < Max(b.x, b.Right())
    && Min(a.y, a.Bottom()) < Max(b.y, b.Bottom())
    && Max(a.x, a.Right()) > Min(b.x, b.Right())
    && Max(a.y, a.Bottom()) > Min(b.y, b.Bottom())
  }

  /** For rectangles of positive size, colliderect is the usual open-interval overlap. */
  lemma CollidePositive(a: Rect, b: Rect)
    requires a.w > 0 && a.h > 0 && b.w > 0 && b.h > 0
    ensures Collide(a, b) <==>
      a.x < b.Right() && b.x < a.Right() && a.y < b.Bottom() && b.y < a.Bottom()
  {
  }

  /** Whether two rectangles collide does not depend on which one asks. */
  lemma CollideSymmetric(a: Rect, b: Rect)
    ensures Collide(a, b) == Collide(b, a)
  {
  }
}
