/** The padded wrapper of src/block_document/wrapper.rs: one block, a frame
    assigned later, and a list of styles. */
module Wrappers {
  import opened Options
  import opened Geometry
  import opened Blocks
  import opened Styles

  class Wrapper {
    var block: Block
    var frame: Option<GeoRect>
    var styles: seq<Style>

    /** Wraps `block` with no frame and no styles. */
    constructor (block: Block)
      ensures this.block == block && frame == None && styles == []
    {
      this.block := block;
      frame := None;
      styles := [];
    }

    /** Appends `style`; block and frame are unchanged. */
    method AddStyle(style: Style)
      modifies this
      ensures styles == old(styles) + [style]
      ensures block == old(block) && frame == old(frame)
    {
      styles := styles + [style];
    }

    /** Sets the frame to `frame` (whatever it was); block and styles are unchanged. */
    method SetFrame(frame: GeoRect)
      modifies this
      ensures this.frame == Some(frame)
      ensures block == old(block) && styles == old(styles)
    {
      this.frame := Some(frame);
    }
  }
}
