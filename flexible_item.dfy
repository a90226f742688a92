/** The flexible item of src/block_document/flexible_item.rs: one block, an
    optional basis percentage, and a frame assigned later. */
module FlexibleItems {
  import opened Options
  import opened Geometry
  import opened Blocks

  class FlexibleItem {
    var block: Block
    var frame: Option<GeoRect>
    var basis: Option<real>

    /** Wraps `block` with the given basis and no frame yet. */
    constructor (block: Block, basis: Option<real>)
      ensures this.block == block && this.basis == basis && frame == None
    {
      this.block := block;
      frame := None;
      this.basis := basis;
    }

    /** Sets the frame to `frame` (whatever it was); block and basis are unchanged. */
    method SetFrame(frame: GeoRect)
      modifies this
      ensures this.frame == Some(frame)
      ensures block == old(block) && basis == old(basis)
    {
      this.frame := Some(frame);
    }
  }
}
