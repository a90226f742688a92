/** The older frame type of src/block_document/bounds.rs and its
    bottom-left translation, which (unlike Geometry.Bounds.Transform) needs
    every field it reads and adds no parent x offset. */
module Bounds {
  import opened Options
  import Geometry

  datatype Bounds = Bounds(width: Option<real>, height: Option<real>, x: Option<real>, y: Option<real>) {

    function MinX(): (r: real)
      requires x.Some?
      ensures x == Some(r)
    {
      x.value
    }

    function MaxX(): (r: real)
      requires x.Some? && width.Some?
      ensures r - MinX() == width.value
    {
      x.value + width.value
    }

    function MinY(): (r: real)
      requires y.Some?
      ensures y == Some(r)
    {
      y.value
    }

    function MaxY(): (r: real)
      requires y.Some? && height.Some?
      ensures r - MinY() == height.value
    {
      y.value + height.value
    }

    /** Top-left to bottom-left translation against `parent`; panics unless
        the parent's y and height and the own y and height are present. */
    function TranslateLb(parent: Bounds): (r: Bounds)
      requires parent.y.Some? && parent.height.Some?
      requires y.Some? && height.Some?
      ensures r.width == width && r.height == height && r.x == x
      ensures r.y.Some?
    {
      Bounds(width, height, x, Some(parent.MaxY() - height.value - y.value))
    }
  }

  /** The translated y leaves room for the own height below the parent's bottom
      edge: y' + height + y == parent.max_y. */
  lemma TranslateLbFlipsY(b: Bounds, parent: Bounds)
    requires parent.y.Some? && parent.height.Some?
    requires b.y.Some? && b.height.Some?
    ensures b.TranslateLb(parent).y.value + b.height.value + b.y.value == parent.MaxY()
  {
  }

  /** Translating twice against the same parent gives back the original frame. */
  lemma TranslateLbTwiceRestores(b: Bounds, parent: Bounds)
    requires parent.y.Some? && parent.height.Some?
    requires b.y.Some? && b.height.Some?
    ensures b.TranslateLb(parent).TranslateLb(parent) == b
  {
  }

  function AsGeometry(b: Bounds): Geometry.Bounds {
    Geometry.Bounds(b.width, b.height, b.x, b.y)
  }

  /** Where every field is present, the two revisions agree on y; on x they
      differ exactly by the parent's x, which only Geometry adds. */
  lemma TranslateLbAgreesWithTransform(b: Bounds, parent: Bounds)
    requires b.width.Some? && b.height.Some? && b.x.Some? && b.y.Some?
    requires parent.width.Some? && parent.height.Some? && parent.x.Some? && parent.y.Some?
    ensures AsGeometry(b).Transform(AsGeometry(parent)).y == b.TranslateLb(parent).y
    ensures AsGeometry(b).Transform(AsGeometry(parent)).x.value
            == b.TranslateLb(parent).x.value + parent.x.value
  {
  }
}
