/** Multi-line text measurement of src/block_document/text_renderer.rs:
    the width is the widest line, kerning restarts after every '\n', and
    the height grows with the number of lines. */
module TextRenderer {
  import opened Options
  import opened GlyphMetrics
  import opened Geometry

  /** Rust's f32::max on exact values. */
  function Max(a: real, b: real): (m: real)
    ensures m >= a && m >= b && (m == a || m == b)
  {
    if a >= b then a else b
  }

  /** The segments after one more character: a '\n' opens a new, empty
      segment; any other character extends the last one. */
  function Step(segs: seq<string>, c: char): (r: seq<string>)
    requires |segs| >= 1
    ensures |r| >= 1
  {
    if c == '\n' then segs + [[]]
    else segs[..|segs| - 1] + [segs[|segs| - 1] + [c]]
  }

  /** The pieces of `text` between its '\n' characters (Rust's split('\n')):
      one more piece than there are line breaks, possibly empty ones. */
  function Segments(text: string): (segs: seq<string>)
    ensures |segs| >= 1
    decreases |text|
  {
    if text == [] then [[]]
    else Step(Segments(text[..|text| - 1]), text[|text| - 1])
  }

  lemma SegmentsAppend(s: string, c: char)
    ensures Segments(s + [c]) == Step(Segments(s), c)
  {
    assert (s + [c])[..|s|] == s;
  }

  /** The inverse of Segments: the pieces glued back together with '\n'. */
  function JoinLines(segs: seq<string>): string
    requires |segs| >= 1
  {
    if |segs| == 1 then segs[0]
    else JoinLines(segs[..|segs| - 1]) + ['\n'] + segs[|segs| - 1]
  }

  /** The number of '\n' characters in `text`. */
  function BreakCount(text: string): nat {
    if text == [] then 0
    else BreakCount(text[..|text| - 1]) + (if text[|text| - 1] == '\n' then 1 else 0)
  }

  /** The widest of the given lines, and never less than 0. */
  function MaxRunWidth(font: ScaledFont, segs: seq<string>): real {
    if segs == [] then 0.0
    else Max(MaxRunWidth(font, segs[..|segs| - 1]), RunWidth(font, segs[|segs| - 1]))
  }

  /** The unscaled width measure_text assigns to `text`. */
  function WidthPx(font: ScaledFont, text: string): real {
    MaxRunWidth(font, Segments(text))
  }

  /** Rust's `str::lines().count()`: the pieces between line breaks, except
      that a final empty piece (text that is empty or ends in '\n') is not a line. */
  function LineCount(text: string): nat {
    var segs := Segments(text);
    if segs[|segs| - 1] == [] then |segs| - 1 else |segs|
  }

  /** The unscaled height of `n` lines: n line heights and n - 1 line gaps. */
  function HeightPx(font: ScaledFont, n: nat): real {
    (font.ascent + font.descent) * (n as real) + font.lineGap * ((n as real) - 1.0)
  }

  lemma HeightPxOfRealCount(font: ScaledFont, n: nat, r: real)
    requires r == n as real
    ensures HeightPx(font, n) == (font.ascent + font.descent) * r + font.lineGap * (r - 1.0)
  {
  }

  /** Measures `text` with the scaled font: the widest line and the height of
      all lines, both converted from pixels to millimetres. */
  method MeasureText(text: string, font: ScaledFont) returns (size: GeoSize)
    ensures size.width == PxToMm(WidthPx(font, text))
    ensures size.height == PxToMm(HeightPx(font, LineCount(text)))
  {
    var maxWidthPx: real := 0.0;
    var currentWidthPx: real := 0.0;
    var prevGlyph: Option<GlyphId> := None;
    ghost var segs: seq<string> := [[]];

    for i := 0 to |text|
      invariant segs == Segments(text[..i])
      invariant maxWidthPx == MaxRunWidth(font, segs[..|segs| - 1])
      invariant currentWidthPx == RunWidth(font, segs[|segs| - 1])
      invariant prevGlyph == LastGlyph(font, segs[|segs| - 1])
    {
      var c := text[i];
      assert text[..i + 1] == text[..i] + [c];
      SegmentsAppend(text[..i], c);
      ghost var last := segs[|segs| - 1];
      if c == '\n' {
        MaxRunWidthStep(font, segs);
        maxWidthPx := Max(maxWidthPx, currentWidthPx);
        currentWidthPx := 0.0;
        prevGlyph := None;
        assert (segs + [[]])[..|segs|] == segs;
        segs := Step(segs, c);
        continue;
      }
      var glyphId := font.glyphId(c);
      if prevGlyph.Some? {
        currentWidthPx := currentWidthPx + font.kern(prevGlyph.value, glyphId);
      }
      currentWidthPx := currentWidthPx + font.hAdvance(glyphId);
      prevGlyph := Some(glyphId);
      RunWidthAppend(font, last, c);
      assert (segs[..|segs| - 1] + [last + [c]])[..|segs| - 1] == segs[..|segs| - 1];
      segs := Step(segs, c);
    }
    assert text[..|text|] == text;
    MaxRunWidthStep(font, segs);
    maxWidthPx := Max(maxWidthPx, currentWidthPx);

    var numLines := LineCount(text) as real;
    var heightPx := (font.ascent + font.descent) * numLines + font.lineGap * (numLines - 1.0);

    var widthPt := maxWidthPx * PxToPt;
    var heightPt := heightPx * PxToPt;

    var widthMm := widthPt * PtToMm;
    var heightMm := heightPt * PtToMm;
    HeightPxOfRealCount(font, LineCount(text), numLines);

    size := GeoSize(widthMm, heightMm);
  }

  lemma MaxRunWidthStep(font: ScaledFont, segs: seq<string>)
    requires |segs| >= 1
    ensures MaxRunWidth(font, segs) ==
      Max(MaxRunWidth(font, segs[..|segs| - 1]), RunWidth(font, segs[|segs| - 1]))
  {
  }

  // ----- Segments and JoinLines are inverse to each other -----

  /** Gluing the pieces back together gives the text, and no piece holds a '\n'. */
  lemma {:induction false} JoinSegments(text: string)
    ensures JoinLines(Segments(text)) == text
    ensures forall k :: 0 <= k < |Segments(text)| ==> '\n' !in Segments(text)[k]
    decreases |text|
  {
    if text != [] {
      var init, c := text[..|text| - 1], text[|text| - 1];
      assert text == init + [c];
      JoinSegments(init);
      var segs := Segments(init);
      var n := |segs|;
      if c != '\n' {
        var r := segs[..n - 1] + [segs[n - 1] + [c]];
        assert Segments(text) == r;
        if n > 1 {
          assert r[..n - 1] == segs[..n - 1];
          assert JoinLines(segs) == JoinLines(segs[..n - 1]) + ['\n'] + segs[n - 1];
        }
        forall k | 0 <= k < |r| ensures '\n' !in r[k] {
          if k < n - 1 { assert r[k] == segs[k]; }
        }
      } else {
        assert (segs + [[]])[..n] == segs;
      }
    }
  }

  /** A piece of text without '\n' is a single segment. */
  lemma {:induction false} SegmentsOfOneLine(s: string)
    requires '\n' !in s
    ensures Segments(s) == [s]
    decreases |s|
  {
    if s != [] {
      var init := s[..|s| - 1];
      assert '\n' !in init by {
        forall k | 0 <= k < |init| ensures init[k] != '\n' { assert init[k] == s[k]; }
      }
      SegmentsOfOneLine(init);
      assert init + [s[|s| - 1]] == s;
    }
  }

  /** A break splits the segments exactly there. */
  lemma {:induction false} SegmentsAcrossBreak(a: string, b: string)
    ensures Segments(a + ['\n'] + b) == Segments(a) + Segments(b)
    decreases |b|
  {
    if b == [] {
      assert a + ['\n'] + b == a + ['\n'];
      SegmentsAppend(a, '\n');
    } else {
      var b0, c := b[..|b| - 1], b[|b| - 1];
      assert a + ['\n'] + b == (a + ['\n'] + b0) + [c];
      assert b == b0 + [c];
      SegmentsAppend(a + ['\n'] + b0, c);
      SegmentsAppend(b0, c);
      SegmentsAcrossBreak(a, b0);
      StepAfterPrefix(Segments(a), Segments(b0), c);
    }
  }

  /** Stepping only ever touches the last segment. */
  lemma StepAfterPrefix(xs: seq<string>, ys: seq<string>, c: char)
    requires |ys| >= 1
    ensures Step(xs + ys, c) == xs + Step(ys, c)
  {
    var xy := xs + ys;
    assert xy[..|xy| - 1] == xs + ys[..|ys| - 1];
  }

  /** Splitting lines that contain no '\n' after gluing them together gives them back. */
  lemma {:induction false} SegmentsOfJoin(segs: seq<string>)
    requires |segs| >= 1
    requires forall k :: 0 <= k < |segs| ==> '\n' !in segs[k]
    ensures Segments(JoinLines(segs)) == segs
    decreases |segs|
  {
    if |segs| == 1 {
      SegmentsOfOneLine(segs[0]);
    } else {
      var init := segs[..|segs| - 1];
      SegmentsOfJoin(init);
      SegmentsAcrossBreak(JoinLines(init), segs[|segs| - 1]);
      SegmentsOfOneLine(segs[|segs| - 1]);
      assert init + [segs[|segs| - 1]] == segs;
    }
  }

  // ----- The width -----

  lemma {:induction false} MaxRunWidthBounds(font: ScaledFont, segs: seq<string>)
    ensures MaxRunWidth(font, segs) >= 0.0
    ensures forall k :: 0 <= k < |segs| ==> RunWidth(font, segs[k]) <= MaxRunWidth(font, segs)
    ensures MaxRunWidth(font, segs) == 0.0 ||
            exists k :: 0 <= k < |segs| && RunWidth(font, segs[k]) == MaxRunWidth(font, segs)
    decreases |segs|
  {
    if segs != [] {
      var init := segs[..|segs| - 1];
      MaxRunWidthBounds(font, init);
      forall k | 0 <= k < |segs| ensures RunWidth(font, segs[k]) <= MaxRunWidth(font, segs) {
        if k < |init| { assert segs[k] == init[k]; }
      }
      if MaxRunWidth(font, segs) != 0.0 && MaxRunWidth(font, segs) != RunWidth(font, segs[|segs| - 1]) {
        var k :| 0 <= k < |init| && RunWidth(font, init[k]) == MaxRunWidth(font, init);
        assert segs[k] == init[k];
      }
    }
  }

  /** The width is the widest line: at least every line's width and at least 0,
      and equal to one of them unless it is 0. */
  lemma WidthIsWidestLine(font: ScaledFont, text: string)
    ensures WidthPx(font, text) >= 0.0
    ensures forall k :: 0 <= k < |Segments(text)| ==> RunWidth(font, Segments(text)[k]) <= WidthPx(font, text)
    ensures WidthPx(font, text) == 0.0 ||
            exists k :: 0 <= k < |Segments(text)| && RunWidth(font, Segments(text)[k]) == WidthPx(font, text)
  {
    var segs := Segments(text);
    MaxRunWidthBounds(font, segs);
    if WidthPx(font, text) != 0.0 {
      var k :| 0 <= k < |segs| && RunWidth(font, segs[k]) == MaxRunWidth(font, segs);
      assert RunWidth(font, Segments(text)[k]) == WidthPx(font, text);
    }
  }

  lemma {:induction false} MaxRunWidthAppend(font: ScaledFont, xs: seq<string>, ys: seq<string>)
    ensures MaxRunWidth(font, xs + ys) == Max(MaxRunWidth(font, xs), MaxRunWidth(font, ys))
    decreases |ys|
  {
    if ys == [] {
      assert xs + ys == xs;
      MaxRunWidthBounds(font, xs);
    } else {
      var y0 := ys[..|ys| - 1];
      assert (xs + ys)[..|xs + ys| - 1] == xs + y0;
      MaxRunWidthAppend(font, xs, y0);
    }
  }

  /** Kerning never bridges a line break and the '\n' itself adds no width:
      text around a break is as wide as the wider of its two sides. */
  lemma WidthAcrossBreak(font: ScaledFont, a: string, b: string)
    ensures WidthPx(font, a + ['\n'] + b) == Max(WidthPx(font, a), WidthPx(font, b))
  {
    SegmentsAcrossBreak(a, b);
    MaxRunWidthAppend(font, Segments(a), Segments(b));
  }

  /** Text on one line is as wide as its run of glyphs (at least 0). */
  lemma WidthOfOneLine(font: ScaledFont, text: string)
    requires '\n' !in text
    ensures WidthPx(font, text) == Max(0.0, RunWidth(font, text))
  {
    SegmentsOfOneLine(text);
    MaxRunWidthStep(font, [text]);
  }

  /** Empty text is 0 wide. */
  lemma EmptyTextHasNoWidth(font: ScaledFont)
    ensures WidthPx(font, []) == 0.0
  {
    MaxRunWidthStep(font, [[]]);
  }

  // ----- Line counting and the height -----

  lemma {:induction false} SegmentCountIsBreaksPlusOne(text: string)
    ensures |Segments(text)| == BreakCount(text) + 1
    ensures Segments(text)[|Segments(text)| - 1] == [] <==> (text == [] || text[|text| - 1] == '\n')
    decreases |text|
  {
    if text != [] {
      SegmentCountIsBreaksPlusOne(text[..|text| - 1]);
    }
  }

  /** The line count is the number of breaks, plus one for a final line that
      does not end in '\n'. */
  lemma LineCountByBreaks(text: string)
    ensures LineCount(text) ==
      BreakCount(text) + (if text != [] && text[|text| - 1] != '\n' then 1 else 0)
  {
    SegmentCountIsBreaksPlusOne(text);
  }

  /** Non-empty text without a break is one line, as high as ascent plus descent. */
  lemma OneLineHeight(font: ScaledFont, text: string)
    requires text != [] && '\n' !in text
    ensures LineCount(text) == 1
    ensures HeightPx(font, LineCount(text)) == font.ascent + font.descent
  {
    SegmentsOfOneLine(text);
  }

  /** Empty text has no lines, so its height is minus one line gap. */
  lemma EmptyTextHeight(font: ScaledFont)
    ensures LineCount([]) == 0
    ensures HeightPx(font, LineCount([])) == -font.lineGap
  {
  }

  /** A trailing '\n' after a non-empty last line opens no new line. */
  lemma TrailingBreakAddsNoLine(text: string)
    requires text != [] && text[|text| - 1] != '\n'
    ensures LineCount(text + ['\n']) == LineCount(text)
  {
    LineCountByBreaks(text);
    LineCountByBreaks(text + ['\n']);
    assert (text + ['\n'])[..|text|] == text;
  }

  /** Each extra line adds one line height and one line gap. */
  lemma HeightPerLine(font: ScaledFont, n: nat)
    ensures HeightPx(font, n + 1) - HeightPx(font, n) == font.ascent + font.descent + font.lineGap
  {
  }
}
