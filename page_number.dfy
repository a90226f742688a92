/** The page-number configuration of src/block_document/page_number.rs. */
module PageNumbers {
  import opened Options
  import opened Geometry
  import opened Styles

  class PageNumber {
    var format: string
    var fontSize: real
    var fontPath: Option<string>
    var frame: Option<GeoRect>
    var styles: seq<Style>

    /** Stores the format, font size (pt), font path and frame, with no styles. */
    constructor (format: string, fontSize: real, fontPath: Option<string>, frame: Option<GeoRect>)
      ensures this.format == format && this.fontSize == fontSize
      ensures this.fontPath == fontPath && this.frame == frame
      ensures styles == []
    {
      this.format := format;
      this.fontSize := fontSize;
      this.fontPath := fontPath;
      this.frame := frame;
      styles := [];
    }

    /** Appends `style`; no other field changes. */
    method AddStyle(style: Style)
      modifies this
      ensures styles == old(styles) + [style]
      ensures format == old(format) && fontSize == old(fontSize)
      ensures fontPath == old(fontPath) && frame == old(frame)
    {
      styles := styles + [style];
    }
  }
}
