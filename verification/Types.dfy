/** The values both ends exchange (deflect/types.h, SegmentParameters.h, Segment.h, server/Tile.h). */
module Types {
  type Byte = b: int | 0 <= b < 256

  datatype View = Mono | LeftEye | RightEye | SideBySide

  datatype RowOrder = TopDown | BottomUp

  /** One byte, not checked by the receiver. */
  type Format = Byte

  const RGBA: Format := 0

  /** Coordinates are 32-bit unsigned. */
  type Word = w: int | 0 <= w < 0x1_0000_0000

  datatype Tile = Tile(
    x: Word, y: Word, width: Word, height: Word,
    format: Format, rowOrder: RowOrder, view: View, channel: Byte, data: seq<Byte>)
}
