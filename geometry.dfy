/** Frame geometry of src/block_document/geometry.rs: a rectangle whose four
    fields are each optional, its edges, and the flip from a top-left origin
    to a bottom-left origin. All values are millimetres. */
module Geometry {
  import opened Options

  datatype Point = Point(x: real, y: real)

  datatype Size = Size(width: real, height: real)

  /** The size type returned by the multi-line text measurement. */
  datatype GeoSize = GeoSize(width: real, height: real)

  datatype GeoPoint = GeoPoint(x: real, y: real)

  /** A frame: an optional point and an optional size, independently absent. */
  datatype GeoRect = GeoRect(point: Option<GeoPoint>, size: Option<GeoSize>)

  datatype Bounds = Bounds(width: Option<real>, height: Option<real>, x: Option<real>, y: Option<real>) {

    /** The left edge; `unwrap` panics when x is absent. */
    function MinX(): (r: real)
      requires x.Some?
      ensures x == Some(r)
    {
      x.value
    }

    /** The right edge; needs both x and width. */
    function MaxX(): (r: real)
      requires x.Some? && width.Some?
      ensures r - MinX() == width.value
    {
      x.value + width.value
    }

    /** The top edge; `unwrap` panics when y is absent. */
    function MinY(): (r: real)
      requires y.Some?
      ensures y == Some(r)
    {
      y.value
    }

    /** The bottom edge (top-left origin); needs both y and height. */
    function MaxY(): (r: real)
      requires y.Some? && height.Some?
      ensures r - MinY() == height.value
    {
      y.value + height.value
    }

    /** Converts a frame given relative to `parent` with a top-left origin into
        one with a bottom-left origin. Absent parent fields and an absent own
        height count as 0; an absent x or y stays absent. */
    function Transform(parent: Bounds): (r: Bounds)
      ensures r.width == width && r.height == height
      ensures r.x.Some? <==> x.Some?
      ensures r.y.Some? <==> y.Some?
    {
      Bounds(
        width,
        height,
        x.Map(v => v + parent.x.UnwrapOr(0.0)),
        y.Map(v => parent.height.UnwrapOr(0.0) - v - height.UnwrapOr(0.0) + parent.y.UnwrapOr(0.0)))
    }
  }

  /** A frame whose four fields are all present. */
  predicate FullySpecified(b: Bounds) {
    b.width.Some? && b.height.Some? && b.x.Some? && b.y.Some?
  }

  /** The edges are as far apart as the size says, so max >= min for a non-negative size. */
  lemma ExtentIsSize(b: Bounds)
    requires FullySpecified(b)
    ensures b.MaxX() - b.MinX() == b.width.value
    ensures b.MaxY() - b.MinY() == b.height.value
    ensures b.width.value >= 0.0 ==> b.MinX() <= b.MaxX()
    ensures b.height.value >= 0.0 ==> b.MinY() <= b.MaxY()
  {
  }

  /** The flipped x is the own x shifted by the parent's x (0 when absent). */
  lemma TransformShiftsX(b: Bounds, parent: Bounds)
    ensures b.x.Some? ==> b.Transform(parent).x.value - b.x.value == parent.x.UnwrapOr(0.0)
  {
  }

  /** The flipped y, the own y and the own height together span the parent's
      height from the parent's y: y' + y + height == parent.height + parent.y. */
  lemma TransformFlipsY(b: Bounds, parent: Bounds)
    ensures b.y.Some? ==>
      b.Transform(parent).y.value + b.y.value + b.height.UnwrapOr(0.0)
      == parent.height.UnwrapOr(0.0) + parent.y.UnwrapOr(0.0)
  {
  }

  /** With everything present, the flip exchanges the edges: the new top edge
      is the parent's bottom edge minus the own bottom edge, and the new
      bottom edge is the parent's bottom edge minus the own top edge. */
  lemma TransformExchangesEdges(b: Bounds, parent: Bounds)
    requires FullySpecified(b) && FullySpecified(parent)
    ensures FullySpecified(b.Transform(parent))
    ensures b.Transform(parent).MinY() == parent.MaxY() - b.MaxY()
    ensures b.Transform(parent).MaxY() == parent.MaxY() - b.MinY()
  {
  }

  /** Flipping twice against the same parent restores y (and the size); x is shifted twice. */
  lemma TransformTwiceRestoresY(b: Bounds, parent: Bounds)
    ensures b.Transform(parent).Transform(parent).y == b.y
    ensures b.Transform(parent).Transform(parent).width == b.width
    ensures b.Transform(parent).Transform(parent).height == b.height
    ensures b.x.Some? ==>
      b.Transform(parent).Transform(parent).x == Some(b.x.value + 2.0 * parent.x.UnwrapOr(0.0))
  {
  }
}
