/** The document record of src/block_document/document.rs and its pixel to
    millimetre conversion. */
module Documents {
  import opened Containers

  /** Image resolution in dots per inch. */
  const DPI: real := 300.0

  /** Millimetres covered by `pixel` dots at DPI dots per inch (25.4 mm per inch). */
  function PixelToMm(pixel: real): (mm: real)
    ensures mm * DPI == pixel * 25.4
  {
    pixel / (DPI / 25.4)
  }

  /** The conversion maps 0 to 0, is linear, and is strictly increasing. */
  lemma PixelToMmIsLinear(a: real, b: real, k: real)
    ensures PixelToMm(0.0) == 0.0
    ensures PixelToMm(a + b) == PixelToMm(a) + PixelToMm(b)
    ensures PixelToMm(k * a) == k * PixelToMm(a)
    ensures a < b ==> PixelToMm(a) < PixelToMm(b)
  {
  }

  /** A 900 x 600 pixel image is 76.2 mm x 50.8 mm. */
  lemma PixelToMmExamples()
    ensures PixelToMm(900.0) == 76.2
    ensures PixelToMm(600.0) == 50.8
  {
  }

  class Document {
    var title: string
    var width: real
    var height: real
    var containers: seq<Container>

    /** A document with the given title and page size (mm) and no containers. */
    constructor (title: string, width: real, height: real)
      ensures this.title == title && this.width == width && this.height == height
      ensures containers == []
    {
      this.title := title;
      this.width := width;
      this.height := height;
      containers := [];
    }

    /** Appends `container` after the existing containers; title and size are unchanged. */
    method AddContainer(container: Container)
      modifies this
      ensures containers == old(containers) + [container]
      ensures title == old(title) && width == old(width) && height == old(height)
    {
      containers := containers + [container];
    }
  }
}
