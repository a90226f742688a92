/** The stand-in parser of src/block_document/document_json.rs: it reads no
    input and builds one fixed document from the builders. */
module DocumentJson {
  import opened Blocks
  import opened Containers
  import opened Documents

  /** An A4 document titled "HELLO" with one container holding one default block. */
  method Parse() returns (doc: Document)
    ensures fresh(doc)
    ensures doc.title == "HELLO" && doc.width == 210.0 && doc.height == 297.0
    ensures |doc.containers| == 1 && fresh(doc.containers[0])
    ensures doc.containers[0].blocks == [Block.New()]
  {
    doc := new Document("HELLO", 210.0, 297.0);

    var container := new Container();

    var block := Block.New();
    container.AddBlock(block);

    doc.AddContainer(container);
  }

  /** Parse takes no input, so two calls build documents with the same content. */
  method ParseIsDeterministic() returns (same: bool)
    ensures same
  {
    var first := Parse();
    var second := Parse();
    same := first.title == second.title && first.width == second.width && first.height == second.height
      && |first.containers| == |second.containers|
      && first.containers[0].blocks == second.containers[0].blocks;
  }
}
