/** Axis-aligned rectangles in whole pixels, as pygame.Rect holds them, and the
    overlap test all three games use for collisions. */
module Geometry {

  /** A rectangle anchored at its top-left corner (x, y), w wide and h tall. */
  datatype Rect = Rect(x: int, y: int, w: int, h: int) {
    function Left(): int { x }
    function Right(): int { x + w }
    function Top(): int { y }
    function Bottom(): int { y + h }
    /** pygame's centerx and centery: the corner plus half the size, rounded down. */
    function CenterX(): int { x + w / 2 }
    function CenterY(): int { y + h / 2 }
  }

  /** The pixel (px, py) lies inside r. */
  predicate Covers(r: Rect, px: int, py: int) {
    r.x <= px < r.x + r.w && r.y <= py < r.y + r.h
  }

  /** colliderect: the two boxes share some area; boxes that only touch along an
      edge do not overlap. Two boxes of positive size overlap exactly when the
      top-left pixel of the region where their extents meet lies inside both. */
  predicate Overlaps(a: Rect, b: Rect): (o: bool)
    ensures var px, py := if a.x < b.x then b.x else a.x, if a.y < b.y then b.y else a.y;
      a.w > 0 && a.h > 0 && b.w > 0 && b.h > 0 ==> (o <==> Covers(a, px, py) && Covers(b, px, py))
  {
    a.Left() < b.Right() && b.Left() < a.Right() && a.Top() < b.Bottom() && b.Top() < a.Bottom()
  }

  /** Some rectangle of the list overlaps r. */
  predicate OverlapsAny(r: Rect, rs: seq<Rect>) {
    exists i :: 0 <= i < |rs| && Overlaps(r, rs[i])
  }

  /** Boxes that share a pixel overlap; two boxes of positive size overlap
      only if they share a pixel. */
  lemma SharedPixel(a: Rect, b: Rect)
    ensures (exists px, py :: Covers(a, px, py) && Covers(b, px, py)) ==> Overlaps(a, b)
    ensures a.w > 0 && a.h > 0 && b.w > 0 && b.h > 0 && Overlaps(a, b) ==>
      exists px, py :: Covers(a, px, py) && Covers(b, px, py)
  {
    if a.w > 0 && a.h > 0 && b.w > 0 && b.h > 0 && Overlaps(a, b) {
      var px, py := if a.x < b.x then b.x else a.x, if a.y < b.y then b.y else a.y;
      assert Covers(a, px, py) && Covers(b, px, py);
    }
  }

  lemma OverlapsSymmetric(a: Rect, b: Rect)
    ensures Overlaps(a, b) == Overlaps(b, a)
  {
  }

  lemma OverlapsItself(a: Rect)
    ensures Overlaps(a, a) <==> a.w > 0 && a.h > 0
  {
  }

  /** Two boxes whose horizontal extents are disjoint, or whose vertical
      extents are, do not overlap, however they sit on the other axis. */
  lemma SeparatedDoNotOverlap(a: Rect, b: Rect)
    requires a.Right() <= b.Left() || b.Right() <= a.Left() || a.Bottom() <= b.Top() || b.Bottom() <= a.Top()
    ensures !Overlaps(a, b)
  {
  }
}
