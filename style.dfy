/** The style values of src/block_document/style.rs: plain data attached to blocks. */
module Styles {

  newtype u8 = x: int | 0 <= x < 0x100

  type i64 = x: int | -0x8000_0000_0000_0000 <= x < 0x8000_0000_0000_0000

  datatype RgbColor = RgbColor(r: u8, g: u8, b: u8)

  datatype TextStyle = Fill | Stroke | FillStroke

  datatype TextOutlineStyle = SolidOutline | DashOutline(dash: i64)

  datatype BorderStyle = SolidBorder | DashBorder(dash: i64)

  datatype Style =
    | TextFillColor(color: RgbColor)
    | TextOutlineColor(color: RgbColor)
    | TextStyleOf(textStyle: TextStyle)
    | TextOutlineStyleOf(outlineStyle: TextOutlineStyle)
    | BackgroundColor(color: RgbColor)
    | BorderColor(color: RgbColor)
    | BorderWidth(width: real)
    | BorderStyleOf(borderStyle: BorderStyle)
}
