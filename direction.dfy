/** The flow axis of src/block_document/direction.rs. */
module Directions {

  datatype Direction = Horizontal | Vertical {

    predicate IsHorizontal() {
      this == Horizontal
    }

    predicate IsVertical() {
      this == Vertical
    }
  }

  /** Every direction is on exactly one axis, and each query picks out its own variant. */
  lemma ExactlyOneAxis(d: Direction)
    ensures d.IsHorizontal() <==> d == Horizontal
    ensures d.IsVertical() <==> d == Vertical
    ensures d.IsHorizontal() != d.IsVertical()
  {
  }
}
