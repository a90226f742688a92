/** The line block of src/block_document/line.rs: a frame that must carry
    both its point and its size, and a list of styles. */
module Lines {
  import opened Options
  import opened Geometry
  import opened Styles

  /** The panic message of an incomplete line frame. */
  const UnsupportedBounds: string := "The bounds and points are not supported!"

  class Line {
    var bounds: GeoRect
    var styles: seq<Style>

    /** The struct literal; only reached once the frame is known to be
        complete, and no method changes the frame afterwards. */
    constructor (bounds: GeoRect)
      requires bounds.size.Some? && bounds.point.Some?
      ensures this.bounds == bounds && styles == []
    {
      this.bounds := bounds;
      styles := [];
    }

    /** Builds a line, failing with the panic message when the size or the point is absent. */
    static method New(bounds: GeoRect) returns (r: Result<Line>)
      ensures r.Err? <==> bounds.size.None? || bounds.point.None?
      ensures r.Err? ==> r.message == UnsupportedBounds
      ensures r.Ok? ==> fresh(r.value) && r.value.bounds == bounds && r.value.styles == []
    {
      if bounds.size.None? || bounds.point.None? {
        return Err(UnsupportedBounds);
      }
      var line := new Line(bounds);
      r := Ok(line);
    }

    /** Appends `style` after the existing styles; the frame is unchanged. */
    method AddStyle(style: Style)
      modifies this
      ensures styles == old(styles) + [style]
      ensures bounds == old(bounds)
    {
      styles := styles + [style];
    }
  }
}
