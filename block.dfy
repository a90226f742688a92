/** The generic block record of src/block_document/block.rs. */
module Blocks {
  import opened Options

  /** block.rs declares its own direction enum, separate from Directions.Direction. */
  datatype Direction = Horizontal | Vertical

  datatype Size = Size(width: real, height: real)

  type u64 = x: int | 0 <= x < 0x1_0000_0000_0000_0000

  datatype Coordinate = Coordinate(x: u64, y: u64)

  datatype Block = Block(blocks: seq<Block>, direction: Direction, size: Option<Size>, coordinate: Option<Coordinate>) {

    /** A block with no children, horizontal flow, and no size or coordinate yet. */
    static function New(): (b: Block)
      ensures b.blocks == []
      ensures b.direction == Horizontal
      ensures b.size == None && b.coordinate == None
    {
      Block([], Horizontal, None, None)
    }
  }
}
