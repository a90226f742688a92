/** The block list of src/block_document/container.rs. */
module Containers {
  import opened Blocks

  class Container {
    var blocks: seq<Block>

    /** An empty container. */
    constructor ()
      ensures blocks == []
    {
      blocks := [];
    }

    /** Appends `block` after the existing blocks. */
    method AddBlock(block: Block)
      modifies this
      ensures blocks == old(blocks) + [block]
    {
      blocks := blocks + [block];
    }
  }

  /** A client of the builder: a new container followed by one AddBlock per
      element of `bs` holds exactly those blocks, in call order. */
  method Collect(bs: seq<Block>) returns (c: Container)
    ensures fresh(c)
    ensures c.blocks == bs
  {
    c := new Container();
    for i := 0 to |bs|
      invariant c.blocks == bs[..i]
    {
      c.AddBlock(bs[i]);
      assert bs[..i + 1] == bs[..i] + [bs[i]];
    }
    assert bs[..|bs|] == bs;
  }
}
