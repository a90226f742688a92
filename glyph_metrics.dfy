/** What the two text measurements ask of a font already scaled to the
    requested size: a glyph for each character, each glyph's horizontal
    advance, the kerning between two glyphs, and the vertical metrics.
    Every metric is in font pixels. */
module GlyphMetrics {
  import opened Options

  /** A glyph index of the font (16-bit). */
  type GlyphId = x: int | 0 <= x < 0x1_0000

  datatype ScaledFont = ScaledFont(
    glyphId: char -> GlyphId,
    hAdvance: GlyphId -> real,
    kern: (GlyphId, GlyphId) -> real,
    ascent: real,
    descent: real,
    lineGap: real)

  /** 1 px = 0.75 pt. */
  const PxToPt: real := 0.75

  /** 1 pt = 0.35278 mm. */
  const PtToMm: real := 0.35278

  /** Pixels to millimetres, first to points and then to millimetres. */
  function PxToMm(px: real): (mm: real)
    ensures mm == px * 0.264585
  {
    px * PxToPt * PtToMm
  }

  /** The conversion is linear and keeps the order of lengths. */
  lemma PxToMmIsLinear(a: real, b: real, k: real)
    ensures PxToMm(a + b) == PxToMm(a) + PxToMm(b)
    ensures PxToMm(k * a) == k * PxToMm(a)
    ensures a < b ==> PxToMm(a) < PxToMm(b)
  {
  }

  /** The glyph of the last character, if any: the `prev_glyph` a left-to-right scan holds. */
  function LastGlyph(font: ScaledFont, s: string): (g: Option<GlyphId>)
    ensures g.None? <==> s == []
  {
    if s == [] then None else Some(font.glyphId(s[|s| - 1]))
  }

  /** Width of characters laid out one after another on one line: the last
      character adds its advance, plus its kerning against the glyph before
      it when there is one. */
  function RunWidth(font: ScaledFont, s: string): real
    decreases |s|
  {
    if s == [] then 0.0
    else
      var init := s[..|s| - 1];
      var g := font.glyphId(s[|s| - 1]);
      var kerning := match LastGlyph(font, init)
        case Some(prev) => font.kern(prev, g)
        case None => 0.0;
      RunWidth(font, init) + kerning + font.hAdvance(g)
  }

  /** One more character adds its kerning against the previous glyph, if any, and its advance. */
  lemma RunWidthAppend(font: ScaledFont, s: string, c: char)
    ensures RunWidth(font, s + [c]) ==
      RunWidth(font, s)
      + (match LastGlyph(font, s)
         case Some(prev) => font.kern(prev, font.glyphId(c))
         case None => 0.0)
      + font.hAdvance(font.glyphId(c))
    ensures LastGlyph(font, s + [c]) == Some(font.glyphId(c))
  {
    assert (s + [c])[..|s|] == s;
  }

  /** Reference definition, part one: the sum of all advances. */
  function AdvanceSum(font: ScaledFont, s: string): real
    decreases |s|
  {
    if s == [] then 0.0 else font.hAdvance(font.glyphId(s[0])) + AdvanceSum(font, s[1..])
  }

  /** Reference definition, part two: the kerning of every consecutive pair. */
  function KernSum(font: ScaledFont, s: string): real
    decreases |s|
  {
    if |s| < 2 then 0.0
    else font.kern(font.glyphId(s[0]), font.glyphId(s[1])) + KernSum(font, s[1..])
  }

  lemma {:induction false} AdvanceSumAppend(font: ScaledFont, s: string, c: char)
    ensures AdvanceSum(font, s + [c]) == AdvanceSum(font, s) + font.hAdvance(font.glyphId(c))
    decreases |s|
  {
    if s != [] {
      assert (s + [c])[1..] == s[1..] + [c];
      AdvanceSumAppend(font, s[1..], c);
    }
  }

  lemma {:induction false} KernSumAppend(font: ScaledFont, s: string, c: char)
    ensures KernSum(font, s + [c]) ==
      KernSum(font, s) + (if s == [] then 0.0 else font.kern(font.glyphId(s[|s| - 1]), font.glyphId(c)))
    decreases |s|
  {
    if |s| >= 2 {
      assert (s + [c])[1..] == s[1..] + [c];
      KernSumAppend(font, s[1..], c);
    } else if |s| == 1 {
      assert (s + [c])[1..] == [c];
    }
  }

  /** The run width is the sum of the advances of all characters plus the
      kerning of each consecutive pair: |s| advances and |s| - 1 kernings,
      so the first character is never kerned. */
  lemma {:induction false} RunWidthIsAdvancesPlusKerning(font: ScaledFont, s: string)
    ensures RunWidth(font, s) == AdvanceSum(font, s) + KernSum(font, s)
    decreases |s|
  {
    if s != [] {
      var init, c := s[..|s| - 1], s[|s| - 1];
      assert s == init + [c];
      RunWidthIsAdvancesPlusKerning(font, init);
      AdvanceSumAppend(font, init, c);
      KernSumAppend(font, init, c);
    }
  }

  /** A single character is its advance alone. */
  lemma FirstGlyphIsNotKerned(font: ScaledFont, c: char)
    ensures RunWidth(font, [c]) == font.hAdvance(font.glyphId(c))
  {
    assert [c][..0] == [];
  }

  /** A font whose advances are non-negative and never outweighed by a kerning. */
  ghost predicate NonNegativeProgress(font: ScaledFont) {
    && (forall g: GlyphId :: 0.0 <= font.hAdvance(g))
    && (forall p: GlyphId, g: GlyphId :: 0.0 <= font.kern(p, g) + font.hAdvance(g))
  }

  lemma {:induction false} RunWidthNonNegative(font: ScaledFont, s: string)
    requires NonNegativeProgress(font)
    ensures 0.0 <= RunWidth(font, s)
    decreases |s|
  {
    if s != [] {
      var init := s[..|s| - 1];
      RunWidthNonNegative(font, init);
      var g := font.glyphId(s[|s| - 1]);
      if init != [] {
        assert 0.0 <= font.kern(font.glyphId(init[|init| - 1]), g) + font.hAdvance(g);
      } else {
        assert 0.0 <= font.hAdvance(g);
      }
    }
  }
}
