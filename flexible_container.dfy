/** The flexible row or column of src/block_document/flexible_container.rs. */
module FlexibleContainers {
  import opened Options
  import opened Geometry
  import opened Directions

  /** `T` stands for the block-type enum the container holds, which is not part of this model. */
  class FlexibleContainer<T> {
    var blocks: seq<T>
    var bounds: Option<Bounds>
    var direction: Direction

    /** An empty horizontal container with the given bounds. */
    constructor (bounds: Option<Bounds>)
      ensures blocks == [] && this.bounds == bounds && direction == Horizontal
    {
      blocks := [];
      this.bounds := bounds;
      direction := Horizontal;
    }

    /** Appends `block`; bounds and direction are unchanged. */
    method AddBlock(block: T)
      modifies this
      ensures blocks == old(blocks) + [block]
      ensures bounds == old(bounds) && direction == old(direction)
    {
      blocks := blocks + [block];
    }

    /** Sets the flow direction (whatever it was); nothing else changes. */
    method SetDirection(direction: Direction)
      modifies this
      ensures this.direction == direction
      ensures blocks == old(blocks) && bounds == old(bounds)
    {
      this.direction := direction;
    }

    /** Sets the bounds to `bounds` (whatever they were); nothing else changes. */
    method SetBounds(bounds: Bounds)
      modifies this
      ensures this.bounds == Some(bounds)
      ensures blocks == old(blocks) && direction == old(direction)
    {
      this.bounds := Some(bounds);
    }
  }
}
