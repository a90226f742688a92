/** The container of blocks of src/block_document/block_container.rs. */
module BlockContainers {
  import opened Options
  import opened Geometry
  import opened Directions
  import Blocks

  class BlockContainer {
    var blocks: seq<Blocks.Block>
    var frame: Option<GeoRect>
    var direction: Direction

    /** An empty horizontal container with the given frame. */
    constructor (frame: Option<GeoRect>)
      ensures blocks == [] && this.frame == frame && direction == Horizontal
    {
      blocks := [];
      this.frame := frame;
      direction := Horizontal;
    }

    /** Appends `block`; frame and direction are unchanged. */
    method AddBlock(block: Blocks.Block)
      modifies this
      ensures blocks == old(blocks) + [block]
      ensures frame == old(frame) && direction == old(direction)
    {
      blocks := blocks + [block];
    }

    /** Sets the flow direction; nothing else changes. */
    method SetDirection(direction: Direction)
      modifies this
      ensures this.direction == direction
      ensures blocks == old(blocks) && frame == old(frame)
    {
      this.direction := direction;
    }

    /** Sets the frame to `frame` (whatever it was); nothing else changes. */
    method SetFrame(frame: GeoRect)
      modifies this
      ensures this.frame == Some(frame)
      ensures blocks == old(blocks) && direction == old(direction)
    {
      this.frame := Some(frame);
    }
  }
}
