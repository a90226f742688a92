/** The older text measurement of src/block_document/font.rs: every
    character, a '\n' included, is one glyph on a single line, and the
    height is one line's worth whatever the text. */
module Font {
  import opened Options
  import opened GlyphMetrics
  import Geometry
  import TextRenderer

  /** The unscaled height: ascent, descent and line gap, independent of the text. */
  function HeightPx(font: ScaledFont): real {
    font.ascent + font.descent + font.lineGap
  }

  /** Measures `text` as one run of glyphs, converted from pixels to millimetres. */
  method MeasureText(text: string, font: ScaledFont) returns (size: Geometry.Size)
    ensures size.width == PxToMm(RunWidth(font, text))
    ensures size.height == PxToMm(HeightPx(font))
  {
    var widthPx: real := 0.0;
    var prevGlyph: Option<GlyphId> := None;
    for i := 0 to |text|
      invariant widthPx == RunWidth(font, text[..i])
      invariant prevGlyph == LastGlyph(font, text[..i])
    {
      var c := text[i];
      assert text[..i + 1] == text[..i] + [c];
      RunWidthAppend(font, text[..i], c);
      var glyphId := font.glyphId(c);
      if prevGlyph.Some? {
        widthPx := widthPx + font.kern(prevGlyph.value, glyphId);
      }
      widthPx := widthPx + font.hAdvance(glyphId);
      prevGlyph := Some(glyphId);
    }
    assert text[..|text|] == text;
    var heightPx: real := font.ascent + font.descent + font.lineGap;

    var widthPt := widthPx * PxToPt;
    var heightPt := heightPx * PxToPt;

    var widthMm := widthPt * PtToMm;
    var heightMm := heightPt * PtToMm;

    size := Geometry.Size(widthMm, heightMm);
  }

  /** Empty text is 0 wide. */
  lemma EmptyTextHasNoWidth(font: ScaledFont)
    ensures RunWidth(font, []) == 0.0
  {
  }

  /** No reset at '\n': the newline is measured like any glyph, and the
      glyphs on both sides of it are kerned against it. */
  lemma BreakIsAGlyph(font: ScaledFont, a: string, b: string)
    requires a != [] && b != []
    ensures RunWidth(font, a + ['\n'] + b) ==
      RunWidth(font, a) + RunWidth(font, b) + font.hAdvance(font.glyphId('\n'))
      + font.kern(font.glyphId(a[|a| - 1]), font.glyphId('\n'))
      + font.kern(font.glyphId('\n'), font.glyphId(b[0]))
  {
    var nb := ['\n'] + b;
    assert a + ['\n'] + b == a + nb;
    assert nb[0] == '\n' && nb[1] == b[0] && nb[1..] == b;
    assert AdvanceSum(font, nb) == font.hAdvance(font.glyphId('\n')) + AdvanceSum(font, b);
    assert KernSum(font, nb) == font.kern(font.glyphId('\n'), font.glyphId(b[0])) + KernSum(font, b);
    RunWidthIsAdvancesPlusKerning(font, a + nb);
    RunWidthIsAdvancesPlusKerning(font, a);
    RunWidthIsAdvancesPlusKerning(font, b);
    AdvanceSumConcat(font, a, nb);
    KernSumConcat(font, a, nb);
  }

  lemma {:induction false} AdvanceSumConcat(font: ScaledFont, a: string, b: string)
    ensures AdvanceSum(font, a + b) == AdvanceSum(font, a) + AdvanceSum(font, b)
    decreases |a|
  {
    if a != [] {
      assert (a + b)[1..] == a[1..] + b;
      AdvanceSumConcat(font, a[1..], b);
    } else {
      assert a + b == b;
    }
  }

  lemma {:induction false} KernSumConcat(font: ScaledFont, a: string, b: string)
    requires a != [] && b != []
    ensures KernSum(font, a + b) ==
      KernSum(font, a) + font.kern(font.glyphId(a[|a| - 1]), font.glyphId(b[0])) + KernSum(font, b)
    decreases |a|
  {
    if |a| == 1 {
      assert (a + b)[1..] == b;
    } else {
      assert (a + b)[1..] == a[1..] + b;
      KernSumConcat(font, a[1..], b);
    }
  }

  /** On text without '\n' both revisions measure the same run; the newer
      one never reports less than 0, so they agree exactly when the run is
      not negative, which a font with non-negative progress guarantees. */
  lemma AgreesWithTextRendererOnOneLine(font: ScaledFont, text: string)
    requires '\n' !in text
    ensures TextRenderer.WidthPx(font, text) == TextRenderer.Max(0.0, RunWidth(font, text))
    ensures NonNegativeProgress(font) ==> TextRenderer.WidthPx(font, text) == RunWidth(font, text)
  {
    TextRenderer.WidthOfOneLine(font, text);
    if NonNegativeProgress(font) {
      RunWidthNonNegative(font, text);
    }
  }

  /** The old height is one line of the newer formula plus one line gap. */
  lemma HeightIsOneLinePlusGap(font: ScaledFont)
    ensures HeightPx(font) == TextRenderer.HeightPx(font, 1) + font.lineGap
  {
  }
}
