# rs-pdf block document: frame geometry, text measurement and block builders

This project models the core of the `block_document` part of rs-pdf, a
PDF-generation tool written in Rust. The model covers:

- the frame geometry of `geometry.rs` and `bounds.rs`: rectangles whose
  width, height, x and y are each optional, their edges, and the flip from
  a top-left origin to the bottom-left origin that PDF pages use;
- the two text measurements of `text_renderer.rs` (multi-line) and
  `font.rs` (older, single-line), which turn a string into a width and a
  height from glyph metrics and convert pixels to millimetres;
- the pixel-to-millimetre conversion at 300 DPI of `document.rs`;
- the block-tree builder records: `Document`, `Container`,
  `BlockContainer`, `FlexibleContainer`, `FlexibleItem`, `Wrapper`,
  `PageNumber`, `Line` and `Block`, and the fixed stand-in document that
  `document_json.rs` builds from them;
- the `Direction` enum and its two queries.

There is one Dafny module per Rust file. Pure Rust code (accessors,
`transform`, `translate_lb`, `pixel_to_mm`, `Block::new`, the direction
queries) is modelled as datatypes and functions. The Rust structs that are
changed through `&mut self` are classes: their methods have `modifies`
clauses and state the new value of every field. The two `measure_text`
loops are methods with `for` loops. Each is proved against specification
functions (`RunWidth`, `Segments`, `WidthPx`, `LineCount`), and lemmas
prove what the code promises about those functions.

Values are exact `real`s. The font is a parameter, `GlyphMetrics.ScaledFont`.
It holds a glyph lookup, the horizontal advance of each glyph, the kerning
between two glyphs, and the ascent, descent and line gap. All of these are in
font pixels, for a font already scaled to the requested size.

Notes on the source files:
- The files do not all fit together. `line.rs` reads `bounds.size` and
  `bounds.point`, which `geometry.rs`'s `Bounds` does not have.
  `container.rs` boxes a trait `Block`, which `block.rs` declares as a
  struct. `bounds.rs`, `font.rs` and `page_number.rs` are missing from the
  module list in `block_document.rs`. Each file is therefore modelled
  separately.
- `line.rs`'s frame is modelled as `Geometry.GeoRect`, an optional point and
  an optional size. `GeoRect` and `GeoSize` are referenced but never shown,
  so they are defined minimally.
- `flexible_container.rs` holds a `BlockType` that is never shown. It is the
  class's type parameter `T`.
- `block.rs` declares its own `Direction` enum, and `Blocks.Direction`
  keeps it apart from `Directions.Direction`.
- `container.rs` declares its list as `Vec<Box<dyn Block>>`, a list of
  trait objects. The model stores the `Block` struct of `block.rs` instead,
  which is what `document_json.rs` passes to `Container::add_block`.
  Pushing onto the list behaves the same for any element type.
- The edge accessors do not default an absent field to 0: `unwrap` panics,
  so each accessor has a precondition.
- The height in `font.rs` does not depend on the number of lines: it is the
  constant `ascent + descent + line_gap`.
- `descent` is added as the font reports it. The model gives no meaning to
  its sign.

## Model

| member | source | states |
|---|---|---|
| Geometry.Bounds.MinX | src/block_document/geometry.rs:20-22 | needs x to be present (`unwrap` panics); returns that x |
| Geometry.Bounds.MaxX | src/block_document/geometry.rs:24-26 | needs x and width; lies exactly `width` to the right of `MinX` |
| Geometry.Bounds.MinY | src/block_document/geometry.rs:28-30 | needs y to be present; returns that y |
| Geometry.Bounds.MaxY | src/block_document/geometry.rs:32-34 | needs y and height; lies exactly `height` below `MinY` |
| Geometry.Bounds.Transform | src/block_document/geometry.rs:37-44 | copies width and height unchanged, absent ones included; x and y are present exactly when they were |
| Geometry.ExtentIsSize | src/block_document/geometry.rs:20-34 | max_x - min_x = width and max_y - min_y = height, so max >= min for a non-negative size |
| Geometry.TransformShiftsX | src/block_document/geometry.rs:41 | x' - x is the parent's x, or 0 when the parent has none |
| Geometry.TransformFlipsY | src/block_document/geometry.rs:42 | y' + y + height = parent.height + parent.y, with absent parent height/y and own height counted as 0 |
| Geometry.TransformExchangesEdges | src/block_document/geometry.rs:37-44 | with every field present, the new top edge is parent max_y - own max_y, and the new bottom edge is parent max_y - own min_y |
| Geometry.TransformTwiceRestoresY | src/block_document/geometry.rs:39-42 | flipping twice against the same parent restores y, width and height; x moves by twice the parent's x |
| Bounds.Bounds.MinX | src/block_document/bounds.rs:10-12 | needs x; returns it |
| Bounds.Bounds.MaxX | src/block_document/bounds.rs:14-16 | needs x and width; `width` to the right of `MinX` |
| Bounds.Bounds.MinY | src/block_document/bounds.rs:18-20 | needs y; returns it |
| Bounds.Bounds.MaxY | src/block_document/bounds.rs:22-24 | needs y and height; `height` below `MinY` |
| Bounds.Bounds.TranslateLb | src/block_document/bounds.rs:27-34 | needs parent y and height and own y and height; copies width, height and x verbatim (no parent x offset); the new y is always present |
| Bounds.TranslateLbFlipsY | src/block_document/bounds.rs:32 | y' + height + y = parent.max_y |
| Bounds.TranslateLbTwiceRestores | src/block_document/bounds.rs:29-32 | translating twice against the same parent gives back the original frame |
| Bounds.TranslateLbAgreesWithTransform | src/block_document/bounds.rs:31-32 | with all fields present, gives the same y as `geometry.rs`'s `transform`; the x values differ by exactly the parent's x |
| GlyphMetrics.PxToMm | src/block_document/text_renderer.rs:54-60 | px -> pt (x 0.75) -> mm (x 0.35278), i.e. px x 0.264585 |
| GlyphMetrics.PxToMmIsLinear | src/block_document/text_renderer.rs:55-60 | the conversion is additive, homogeneous and strictly increasing |
| GlyphMetrics.LastGlyph | src/block_document/text_renderer.rs:26-42 | `prev_glyph` is absent exactly before the first glyph of a line |
| GlyphMetrics.RunWidthAppend | src/block_document/text_renderer.rs:36-42 | one more character adds its kerning against the previous glyph, if there is one, plus its advance |
| GlyphMetrics.RunWidthIsAdvancesPlusKerning | src/block_document/font.rs:13-22 | a run's width is the sum of all advances plus the kerning of every consecutive pair (|s| - 1 kernings) |
| GlyphMetrics.FirstGlyphIsNotKerned | src/block_document/text_renderer.rs:37-41 | a single character contributes only its advance |
| GlyphMetrics.RunWidthNonNegative | src/block_document/font.rs:13-22 | with non-negative advances that no kerning outweighs, no run is negative |
| TextRenderer.MeasureText | src/block_document/text_renderer.rs:7-66 | width = mm of the widest '\n'-separated line; height = mm of (ascent+descent)*n + line_gap*(n-1), with n the `lines()` count |
| TextRenderer.Max | src/block_document/text_renderer.rs:30-45 | `f32::max`: at least both arguments and equal to one of them |
| TextRenderer.Segments | src/block_document/text_renderer.rs:28-34 | the text cut at every '\n' has at least one segment |
| TextRenderer.JoinSegments | src/block_document/text_renderer.rs:28-34 | the segments joined with '\n' give back the text, and no segment holds a '\n' |
| TextRenderer.SegmentsOfJoin | src/block_document/text_renderer.rs:28-34 | lines without '\n', joined and split again, are the same lines |
| TextRenderer.SegmentsAcrossBreak | src/block_document/text_renderer.rs:29-34 | the segments of a + '\n' + b are those of a followed by those of b |
| TextRenderer.WidthIsWidestLine | src/block_document/text_renderer.rs:24-45 | the width is >= 0, >= every line's width, and equal to one of them unless it is 0 |
| TextRenderer.WidthAcrossBreak | src/block_document/text_renderer.rs:29-41 | kerning never bridges a '\n', which adds no advance: width(a + '\n' + b) = max(width a, width b) |
| TextRenderer.WidthOfOneLine | src/block_document/text_renderer.rs:36-45 | text without '\n' is as wide as its run of glyphs, or 0 if that is negative |
| TextRenderer.EmptyTextHasNoWidth | src/block_document/text_renderer.rs:24-45 | empty text has width 0 |
| TextRenderer.SegmentCountIsBreaksPlusOne | src/block_document/text_renderer.rs:47 | one more segment than breaks; the last is empty exactly for empty text or a trailing '\n' |
| TextRenderer.LineCountByBreaks | src/block_document/text_renderer.rs:47 | `lines().count()` = number of '\n' plus one if the text is non-empty and does not end in '\n' |
| TextRenderer.OneLineHeight | src/block_document/text_renderer.rs:47-49 | non-empty text without '\n' is one line, of height ascent + descent |
| TextRenderer.EmptyTextHeight | src/block_document/text_renderer.rs:47-49 | empty text has no lines and height -line_gap |
| TextRenderer.TrailingBreakAddsNoLine | src/block_document/text_renderer.rs:47 | a '\n' after a non-empty last line opens no new line |
| TextRenderer.HeightPerLine | src/block_document/text_renderer.rs:48-49 | every extra line adds ascent + descent + line_gap |
| Font.MeasureText | src/block_document/font.rs:6-40 | width = mm of the glyph run over all characters, '\n' included, with no kerning reset; height = mm of ascent + descent + line_gap |
| Font.EmptyTextHasNoWidth | src/block_document/font.rs:13-22 | empty text has width 0 |
| Font.BreakIsAGlyph | src/block_document/font.rs:15-22 | a '\n' is measured like any glyph and is kerned against both neighbours |
| Font.AdvanceSumConcat | src/block_document/font.rs:20 | advances add up over concatenation |
| Font.KernSumConcat | src/block_document/font.rs:17-19 | kerning over a concatenation adds the pair at the seam |
| Font.AgreesWithTextRendererOnOneLine | src/block_document/font.rs:13-22 | for text without '\n', text_renderer's width is max(0, font.rs's width), and the two are equal for a font whose runs are never negative |
| Font.HeightIsOneLinePlusGap | src/block_document/font.rs:23 | the constant height is text_renderer's one-line height plus one line gap |
| Documents.PixelToMm | src/block_document/document.rs:3-7 | the result is the length at DPI 300: mm x 300 = pixel x 25.4 |
| Documents.PixelToMmIsLinear | src/block_document/document.rs:5-7 | maps 0 to 0, is linear and strictly increasing |
| Documents.PixelToMmExamples | src/block_document/document.rs:5-7 | 900 px is 76.2 mm and 600 px is 50.8 mm |
| Documents.Document.constructor | src/block_document/document.rs:17-24 | stores title, width and height verbatim, with no containers |
| Documents.Document.AddContainer | src/block_document/document.rs:26-28 | appends the container at the end; title and size unchanged |
| Directions.ExactlyOneAxis | src/block_document/direction.rs:7-15 | `is_horizontal` holds exactly for Horizontal, `is_vertical` exactly for Vertical, and exactly one of them holds |
| Blocks.Block.New | src/block_document/block.rs:24-31 | no children, Horizontal, no size, no coordinate |
| Lines.Line.constructor | src/block_document/line.rs:17-20 | stores the bounds verbatim with no styles; callable only with a complete frame |
| Lines.Line.New | src/block_document/line.rs:12-21 | fails with the panic message exactly when the size or the point is absent; otherwise a fresh line with those bounds and no styles |
| Lines.Line.AddStyle | src/block_document/line.rs:23-25 | appends the style at the end; bounds unchanged |
| FlexibleContainers.FlexibleContainer.constructor | src/block_document/flexible_container.rs:13-19 | no blocks, the given bounds, direction Horizontal |
| FlexibleContainers.FlexibleContainer.AddBlock | src/block_document/flexible_container.rs:21-23 | appends the block at the end; bounds and direction unchanged |
| FlexibleContainers.FlexibleContainer.SetDirection | src/block_document/flexible_container.rs:25-27 | the direction becomes the argument whatever it was (so repeating the call changes nothing); blocks and bounds unchanged |
| FlexibleContainers.FlexibleContainer.SetBounds | src/block_document/flexible_container.rs:29-31 | bounds become Some(argument) whatever they were (the last call wins); blocks and direction unchanged |
| BlockContainers.BlockContainer.constructor | src/block_document/block_container.rs:13-19 | no blocks, the given frame, direction Horizontal |
| BlockContainers.BlockContainer.AddBlock | src/block_document/block_container.rs:21-23 | appends the block at the end; frame and direction unchanged |
| BlockContainers.BlockContainer.SetDirection | src/block_document/block_container.rs:25-27 | only the direction changes |
| BlockContainers.BlockContainer.SetFrame | src/block_document/block_container.rs:29-31 | frame becomes Some(argument), the last call wins; nothing else changes |
| FlexibleItems.FlexibleItem.constructor | src/block_document/flexible_item.rs:12-18 | stores block and basis verbatim, no frame |
| FlexibleItems.FlexibleItem.SetFrame | src/block_document/flexible_item.rs:20-22 | frame becomes Some(argument), the last call wins; block and basis unchanged (basis has no setter) |
| Wrappers.Wrapper.constructor | src/block_document/wrapper.rs:13-19 | stores the block, no frame, no styles |
| Wrappers.Wrapper.AddStyle | src/block_document/wrapper.rs:21-23 | appends the style at the end; block and frame unchanged |
| Wrappers.Wrapper.SetFrame | src/block_document/wrapper.rs:25-27 | frame becomes Some(argument); block and styles unchanged |
| PageNumbers.PageNumber.constructor | src/block_document/page_number.rs:14-22 | stores format, font size, font path and frame verbatim, no styles |
| PageNumbers.PageNumber.AddStyle | src/block_document/page_number.rs:24-26 | appends the style at the end; no other field changes |
| Containers.Container.constructor | src/block_document/container.rs:9-13 | an empty block list |
| Containers.Container.AddBlock | src/block_document/container.rs:15-17 | the new block is last, the earlier blocks unchanged |
| Containers.Collect | src/block_document/container.rs:9-17 | `new` followed by one `add_block` per block holds exactly those blocks in call order |
| DocumentJson.Parse | src/block_document/document_json.rs:6-17 | title "HELLO", page 210 x 297 mm, exactly one container holding exactly one `Block::new()` |
| DocumentJson.ParseIsDeterministic | src/block_document/document_json.rs:6-17 | two calls build documents with the same content |

## Left out

- Font loading is not part of this model: opening, reading and parsing
  the font file, and `pt_to_px_scale`. These are I/O and library calls, and
  each failure ends the program:
  - `text_renderer.rs:8-21` exits with `exit(1)` when the file cannot be
    opened, for any reason.
  - `text_renderer.rs` also panics at line 14 (`expect` on the read), at
    line 15 (`try_from_vec(..).unwrap()`) and at line 22
    (`pt_to_px_scale(..).unwrap()`).
  - `font.rs` panics at line 7 (`File::open(..).unwrap()`), line 9
    (`expect`), line 10 (`try_from_vec(..).unwrap()`) and line 11
    (`pt_to_px_scale(..).unwrap()`).

  Both `measure_text` models take the already-scaled font as a parameter
  instead of a font size and a font path.
- f32 rounding: every value is an exact real, so neither
  `measure_text`'s scaling nor `pixel_to_mm` models f32 rounding, and
  `f32::max` gets no NaN handling.
- Rust's `str::lines()` also strips a `'\r'` before each `'\n'`. This
  leaves the line count unchanged, so the model counts lines only.
- Ownership: Rust moves a container into `Document::add_container`. The
  Dafny `Document` holds references to `Container` objects, so
  `AddContainer` leaves every container's blocks unchanged, and the
  frame (`modifies this`) guarantees that.
- `set_direction` idempotence and last-call-wins for the setters follow from
  their postconditions. These name the new field value without reference to
  the old one, so no separate member states them.
- `pdf_writer.rs`, `box_document/`, `main.rs` are not part of this model:
  they are drawing, file and command-line code.
- `style.rs` is plain data (`Styles`), and `rectangle.rs`, `image.rs`,
  `text.rs` and `page.rs` are not part of this model: they only store
  private fields or name types that are not shown.
- Layout resolution, flexible basis distribution, wrapper padding and text
  wrapping or ellipsis are not part of this model: no file here implements
  them.
