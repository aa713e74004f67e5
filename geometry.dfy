/** Optional values: the stand-in for Swift's `nil`. */
module Options {
  datatype Option<+T> = None | Some(value: T)
}

/**
 * Rectangles as the layout code reads them: an origin and a size, on exact
 * integer coordinates. Like a Core Graphics rectangle, a frame may carry a
 * negative size; its edges (`MinX`, `MaxX`, `MinY`, `MaxY`) are those of the
 * standardised rectangle.
 */
module Geometry {

  datatype Frame = Frame(x: int, y: int, w: int, h: int) {

    /** Left edge. */
    function MinX(): (r: int)
      ensures (r == x || r == x + w) && r <= x && r <= x + w
    {
      if w >= 0 then x else x + w
    }

    /** Right edge. */
    function MaxX(): (r: int)
      ensures (r == x || r == x + w) && r >= x && r >= x + w
    {
      if w >= 0 then x + w else x
    }

    /** Top edge. */
    function MinY(): (r: int)
      ensures (r == y || r == y + h) && r <= y && r <= y + h
    {
      if h >= 0 then y else y + h
    }

    /** Bottom edge. */
    function MaxY(): (r: int)
      ensures (r == y || r == y + h) && r >= y && r >= y + h
    {
      if h >= 0 then y + h else y
    }
  }

  /**
   * Two rectangles intersect when their interiors overlap on both axes.
   * Rectangles that only touch along an edge do not intersect.
   */
  predicate Intersects(a: Frame, b: Frame) {
    a.MinX() < b.MaxX() && b.MinX() < a.MaxX() &&
    a.MinY() < b.MaxY() && b.MinY() < a.MaxY()
  }

  /** The vertical extents of `a` and `b` do not overlap. */
  predicate VerticallyApart(a: Frame, b: Frame) {
    a.MaxY() <= b.MinY() || b.MaxY() <= a.MinY()
  }

  /** `r` is `f` moved horizontally: only the x origin may differ. */
  predicate SameExceptX(r: Frame, f: Frame) {
    r.y == f.y && r.w == f.w && r.h == f.h
  }

  /** Rectangles that lie apart vertically never intersect. */
  lemma ApartNeverIntersect(a: Frame, b: Frame)
    requires VerticallyApart(a, b)
    ensures !Intersects(a, b) && !Intersects(b, a)
  {
  }
}
