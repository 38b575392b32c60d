/** The part of java.awt.Rectangle the game uses: an integer box and its intersection test. */
module Awt {

  /** An axis-aligned box: top-left corner (x, y), y growing downwards. */
  datatype Rect = Rect(x: int, y: int, width: int, height: int)

  /** The point (px, py) lies inside r (left and top edges included, right and bottom excluded). */
  predicate Contains(r: Rect, px: int, py: int) {
    r.x <= px < r.x + r.width && r.y <= py < r.y + r.height
  }

  /**
   * Rectangle.intersects: both boxes non-empty and overlapping on both axes with
   * positive width; boxes that only touch along an edge do not intersect.
   */
  predicate Intersects(a: Rect, b: Rect): (r: bool)
    ensures r ==>
      var px := if a.x < b.x then b.x else a.x;
      var py := if a.y < b.y then b.y else a.y;
      Contains(a, px, py) && Contains(b, px, py)
    ensures !r ==> forall px, py :: !(Contains(a, px, py) && Contains(b, px, py))
  {
    && a.width > 0 && a.height > 0 && b.width > 0 && b.height > 0
    && a.x < b.x + b.width && b.x < a.x + a.width
    && a.y < b.y + b.height && b.y < a.y + a.height
  }

  /** Two boxes intersect exactly when some integer point lies in both. */
  lemma IntersectsIffCommonPoint(a: Rect, b: Rect)
    ensures Intersects(a, b) <==> exists px, py :: Contains(a, px, py) && Contains(b, px, py)
  {
    if Intersects(a, b) {
      var px := if a.x < b.x then b.x else a.x;
      var py := if a.y < b.y then b.y else a.y;
      assert Contains(a, px, py) && Contains(b, px, py);
    }
  }

  /** Intersection does not depend on the order of its arguments. */
  lemma IntersectsSymmetric(a: Rect, b: Rect)
    ensures Intersects(a, b) == Intersects(b, a)
  {
  }
}
