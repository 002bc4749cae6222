/**
 * Raw segments lose nothing (deflect/ImageSegmenter.cpp, generateRaw): where every byte of a segment
 * comes from, when the copies stay inside the buffer, and that pasting the segments back restores the
 * image. The multi-segment copy indexes the buffer by stream coordinates, so the origin matters.
 */
module RawSegments {
  import opened Common
  import opened Types
  import opened Segmenter
  import M = Modular

  /** Bytes of one line of the image, and of one line of an eye's part. */
  function LineBytes(m: Image): nat {
    m.width * m.bytesPerPixel
  }

  function EyeBytes(m: Image): nat {
    EyeWidth(m) * m.bytesPerPixel
  }

  /** The column in which an eye's part begins. */
  function Shift(m: Image, right: bool): nat {
    if right then m.width / 2 else 0
  }

  /** The image is where the copy expects it: at the top, and at a column that is 0 once counted in wrapped bytes. */
  predicate Aligned(m: Image) {
    m.y == 0 && U32(m.x * m.bytesPerPixel) == 0
  }

  predicate IsCell(m: Image, info: Info, right: bool, i: nat, j: nat) {
    i < info.countX && j < info.countY && (right ==> m.view == SideBySide)
  }

  function TaskOf(m: Image, info: Info, right: bool, i: nat, j: nat): Task {
    Task(Cell(info, m.x, m.y, i, j), EyeView(m, right), m.rowOrder, m.channel)
  }

  // ---------------------------------------------------------------------------------------
  // Offsets
  // ---------------------------------------------------------------------------------------

  lemma PitchIs(m: Image)
    requires ImageOk(m) && m.height > 0
    ensures Pitch(m) == LineBytes(m) < 0x8000_0000 && |m.data| == m.height * LineBytes(m)
  {
    assert m.width * m.height * m.bytesPerPixel == m.height * LineBytes(m);
    MulMonotone(LineBytes(m), 1, m.height);
  }

  /** Wrapping before and after the multiplication comes to the same. */
  lemma WrappedColumn(x: Word, d: nat, b: nat)
    ensures U32(U32(x + d) * b) == U32(U32(x * b) + d * b)
  {
    var q := (x + d) / WORD32;
    assert U32(x + d) * b == (x * b + d * b) + (-q * b) * WORD32 by {
      assert U32(x + d) == x + d - q * WORD32;
      Expand(x, d, q, b);
    }
    M.AddMultiple(x * b + d * b, -q * b, WORD32);
    var k := x * b / WORD32;
    assert U32(x * b) + d * b == (x * b + d * b) + (-k) * WORD32;
    M.AddMultiple(x * b + d * b, -k, WORD32);
  }

  lemma Expand(x: int, d: int, q: int, b: int)
    ensures (x + d - q * WORD32) * b == (x * b + d * b) + (-q * b) * WORD32
  {
  }

  /** Where the copy of a segment begins, for any origin. */
  lemma OffsetIs(m: Image, w: Word, h: Word, right: bool, i: nat, j: nat)
    requires ImageOk(m) && m.height > 0 && IsCell(m, InfoOf(m, w, h), right, i, j)
    ensures var info := InfoOf(m, w, h);
            Offset(m, TaskOf(m, info, right, i, j)) ==
            U32(m.y + j * info.height) * LineBytes(m)
            + U32(U32(m.x * m.bytesPerPixel) + i * info.width * m.bytesPerPixel)
            + Shift(m, right) * m.bytesPerPixel
  {
    var info := InfoOf(m, w, h);
    PitchIs(m);
    WrappedColumn(m.x, i * info.width, m.bytesPerPixel);
    if right { HalfFits(m); }
  }

  lemma HalfFits(m: Image)
    requires ImageOk(m) && m.height > 0
    ensures U32(m.width / 2 * m.bytesPerPixel) == m.width / 2 * m.bytesPerPixel
  {
    PitchIs(m);
    MulMonotone(m.bytesPerPixel, m.width / 2, m.width);
  }

  /** Columns and rows of a cell, in bytes. */
  lemma CellFits(m: Image, w: Word, h: Word, right: bool, i: nat, j: nat)
    requires ImageOk(m) && Halves(m) && IsCell(m, InfoOf(m, w, h), right, i, j)
    ensures var info, r := InfoOf(m, w, h), Region(InfoOf(m, w, h), i, j);
            && 0 <= r.left && 0 <= r.top && r.top + r.height <= m.height && r.left + r.width <= EyeWidth(m)
            && (Shift(m, right) + r.left + r.width) * m.bytesPerPixel <= LineBytes(m)
            && (Shift(m, right) + r.left + r.width) * m.bytesPerPixel ==
               r.left * m.bytesPerPixel + Shift(m, right) * m.bytesPerPixel + r.width * m.bytesPerPixel
  {
    var r := Region(InfoOf(m, w, h), i, j);
    RegionInside(m, w, h, i, j);
    MulMonotone(m.bytesPerPixel, Shift(m, right) + r.left + r.width, m.width);
  }

  /** For an aligned image the copy begins at the segment's own place. */
  lemma AlignedOffset(m: Image, w: Word, h: Word, right: bool, i: nat, j: nat)
    requires ImageOk(m) && m.height > 0 && Halves(m) && Aligned(m) && IsCell(m, InfoOf(m, w, h), right, i, j)
    ensures var r := Region(InfoOf(m, w, h), i, j);
            Offset(m, TaskOf(m, InfoOf(m, w, h), right, i, j)) ==
            r.top * LineBytes(m) + (r.left * m.bytesPerPixel + Shift(m, right) * m.bytesPerPixel)
  {
    var info := InfoOf(m, w, h);
    var r := Region(info, i, j);
    OffsetIs(m, w, h, right, i, j);
    CellFits(m, w, h, right, i, j);
    PitchIs(m);
    MulMonotone(m.bytesPerPixel, 0, r.left);
    var column := r.left * m.bytesPerPixel;
    assert column == i * info.width * m.bytesPerPixel;
    Small(column);
    Small(r.top);
  }

  lemma Small(x: int)
    requires 0 <= x < 0x8000_0000
    ensures U32(0 + x) == x
  {
  }

  /** Then every line of the copy lies inside the buffer. */
  lemma LineInside(m: Image, w: Word, h: Word, right: bool, i: nat, j: nat, row: nat)
    requires ImageOk(m) && m.height > 0 && Halves(m) && Aligned(m) && IsCell(m, InfoOf(m, w, h), right, i, j)
    requires row < Region(InfoOf(m, w, h), i, j).height
    ensures var r, t := Region(InfoOf(m, w, h), i, j), TaskOf(m, InfoOf(m, w, h), right, i, j);
            && LineStart(Offset(m, t), Pitch(m), row) ==
               (r.top + row) * LineBytes(m) + (r.left * m.bytesPerPixel + Shift(m, right) * m.bytesPerPixel)
            && LineStart(Offset(m, t), Pitch(m), row) + r.width * m.bytesPerPixel <= |m.data|
  {
    var r, t := Region(InfoOf(m, w, h), i, j), TaskOf(m, InfoOf(m, w, h), right, i, j);
    PitchIs(m);
    AlignedOffset(m, w, h, right, i, j);
    CellFits(m, w, h, right, i, j);
    LineStartIs(Offset(m, t), Pitch(m), row);
    LineFits(r.top, row, m.height, LineBytes(m), r.left * m.bytesPerPixel + Shift(m, right) * m.bytesPerPixel,
             r.width * m.bytesPerPixel);
  }

  lemma LineFits(top: int, row: nat, height: nat, line: nat, column: int, bytes: int)
    requires 0 <= top && top + row < height && column + bytes <= line
    ensures top * line + row * line == (top + row) * line
    ensures (top + row) * line + column + bytes <= height * line
  {
    Spread(top, row, 0, line);
    Apart(line, top + row, height);
  }

  lemma AlignedReadable(m: Image, w: Word, h: Word)
    requires ImageOk(m) && Halves(m) && Aligned(m)
    ensures AllReadable(m, InfoOf(m, w, h))
  {
    var info := InfoOf(m, w, h);
    var tasks := AllTasks(m, info);
    forall k | 0 <= k < |tasks| ensures Readable(m, tasks[k]) {
      var right, i, j := TaskIs(m, info, k);
      TaskAt(m, info, right, i, j);
      RegionInside(m, w, h, i, j);
      if tasks[k].params.height > 0 { LineInside(m, w, h, right, i, j, tasks[k].params.height - 1); }
    }
  }

  // ---------------------------------------------------------------------------------------
  // Exactly when the copies stay inside
  // ---------------------------------------------------------------------------------------

  lemma LastCell(m: Image, w: Word, h: Word)
    requires EyeWidth(m) > 0 && m.height > 0
    ensures var info := InfoOf(m, w, h);
            && info.countX > 0 && info.countY > 0
            && (info.countX - 1) * info.width + info.lastWidth == EyeWidth(m) && info.lastWidth > 0
            && (info.countY - 1) * info.height + info.lastHeight == m.height && info.lastHeight > 0
            && 0 <= (info.countX - 1) * info.width && 0 <= (info.countY - 1) * info.height
  {
    var info := InfoOf(m, w, h);
    var i, j := PixelCovered(m, w, h, 0, 0);
    InfoPieces(m, w, h);
    PieceInside(EyeWidth(m), info.width, info.countX, info.lastWidth, info.countX - 1);
    PieceInside(m.height, info.height, info.countY, info.lastHeight, info.countY - 1);
    MulMonotone(info.width, 0, info.countX - 1);
    MulMonotone(info.height, 0, info.countY - 1);
  }

  /** What reading the last line of a cell means; rest: the lines before it, bytes: its own. */
  lemma ReadableMeans(m: Image, w: Word, h: Word, right: bool, i: nat, j: nat) returns (rest: nat, bytes: nat)
    requires ImageOk(m) && m.height > 0 && IsCell(m, InfoOf(m, w, h), right, i, j)
    requires AllReadable(m, InfoOf(m, w, h)) && |AllTasks(m, InfoOf(m, w, h))| != 1
    requires Region(InfoOf(m, w, h), i, j).height > 0
    ensures var r, t := Region(InfoOf(m, w, h), i, j), TaskOf(m, InfoOf(m, w, h), right, i, j);
            && rest == (r.height - 1) * LineBytes(m) && bytes == r.width * m.bytesPerPixel
            && Offset(m, t) + rest + bytes <= m.height * LineBytes(m)
  {
    var info, t := InfoOf(m, w, h), TaskOf(m, InfoOf(m, w, h), right, i, j);
    PitchIs(m);
    TaskAt(m, info, right, i, j);
    assert Readable(m, AllTasks(m, info)[IndexOf(info, right, i, j)]);
    LineStartIs(Offset(m, t), Pitch(m), t.params.height - 1);
    rest, bytes := Product(t.params.height - 1, LineBytes(m)), Product(t.params.width, m.bytesPerPixel);
  }

  function Product(a: nat, b: nat): nat {
    a * b
  }

  /** The first segment shows that the origin is inside the image. */
  lemma OriginInside(m: Image, w: Word, h: Word)
    requires ImageOk(m) && EyeWidth(m) > 0 && m.height > 0
    requires AllReadable(m, InfoOf(m, w, h)) && |AllTasks(m, InfoOf(m, w, h))| != 1
    ensures m.y < m.height && U32(m.x * m.bytesPerPixel) < 0x8000_0000
  {
    var rest, bytes := FirstReads(m, w, h);
    PitchIs(m);
    Bounded(m.y, m.height, LineBytes(m), U32(m.x * m.bytesPerPixel), rest, bytes);
  }

  lemma FirstReads(m: Image, w: Word, h: Word) returns (rest: nat, bytes: nat)
    requires ImageOk(m) && EyeWidth(m) > 0 && m.height > 0
    requires AllReadable(m, InfoOf(m, w, h)) && |AllTasks(m, InfoOf(m, w, h))| != 1
    ensures bytes > 0 && m.y * LineBytes(m) + U32(m.x * m.bytesPerPixel) + rest + bytes <= m.height * LineBytes(m)
  {
    FirstHasBytes(m, w, h);
    FirstOffset(m, w, h);
    rest, bytes := ReadableMeans(m, w, h, false, 0, 0);
  }

  lemma FirstOffset(m: Image, w: Word, h: Word)
    requires ImageOk(m) && m.height > 0 && EyeWidth(m) > 0
    ensures IsCell(m, InfoOf(m, w, h), false, 0, 0)
    ensures Offset(m, TaskOf(m, InfoOf(m, w, h), false, 0, 0)) == m.y * LineBytes(m) + U32(m.x * m.bytesPerPixel)
  {
    LastCell(m, w, h);
    OffsetIs(m, w, h, false, 0, 0);
    Nothing(InfoOf(m, w, h).height, 1);
    Nothing(InfoOf(m, w, h).width, m.bytesPerPixel);
    Fits(m.y);
    Fits(U32(m.x * m.bytesPerPixel));
  }

  lemma Nothing(a: nat, b: nat)
    ensures 0 * a == 0 && 0 * a * b == 0
  {
  }

  lemma Bounded(y: nat, height: nat, line: nat, a: nat, rest: nat, k: nat)
    requires y * line + a + rest + k <= height * line && k > 0
    ensures y < height && a < height * line
  {
    if y >= height { MulMonotone(line, height, y); }
    MulMonotone(line, 0, y);
  }

  lemma FirstHasBytes(m: Image, w: Word, h: Word)
    requires ImageOk(m) && EyeWidth(m) > 0 && m.height > 0
    ensures Region(InfoOf(m, w, h), 0, 0).height > 0 && Region(InfoOf(m, w, h), 0, 0).width * m.bytesPerPixel > 0
  {
    LastCell(m, w, h);
    var width := Region(InfoOf(m, w, h), 0, 0).width;
    assert width > 0;
    MulMonotone(m.bytesPerPixel, 1, width);
  }

  /** The last segment shows that nothing is left for the origin. */
  lemma OriginZero(m: Image, w: Word, h: Word)
    requires ImageOk(m) && Halves(m) && EyeWidth(m) > 0 && m.height > 0
    requires AllReadable(m, InfoOf(m, w, h)) && |AllTasks(m, InfoOf(m, w, h))| != 1
    ensures Aligned(m)
  {
    var info := InfoOf(m, w, h);
    var right := m.view == SideBySide;
    var i, j := info.countX - 1, info.countY - 1;
    LastCell(m, w, h);
    OriginInside(m, w, h);
    PitchIs(m);
    LastColumns(m, w, h, right);
    LastOffset(m, w, h, right);
    var rest, bytes := ReadableMeans(m, w, h, right, i, j);
    NothingLeft(m.y, m.height, LineBytes(m), j * info.height, info.lastHeight, U32(m.x * m.bytesPerPixel),
                i * info.width * m.bytesPerPixel, Shift(m, right) * m.bytesPerPixel, info.lastWidth * m.bytesPerPixel);
  }

  /** The bytes before the last segment's columns, and its own, make up a line. */
  lemma LastColumns(m: Image, w: Word, h: Word, right: bool)
    requires ImageOk(m) && Halves(m) && EyeWidth(m) > 0 && m.height > 0 && right == (m.view == SideBySide)
    ensures var info := InfoOf(m, w, h);
            && info.countX > 0 && info.countY > 0 && LineBytes(m) > 0
            && 0 <= (info.countX - 1) * info.width * m.bytesPerPixel <= LineBytes(m)
            && 0 <= (info.countY - 1) * info.height < m.height
            && (info.countX - 1) * info.width * m.bytesPerPixel + Shift(m, right) * m.bytesPerPixel
               + info.lastWidth * m.bytesPerPixel == LineBytes(m)
  {
    var info := InfoOf(m, w, h);
    LastCell(m, w, h);
    var left := (info.countX - 1) * info.width;
    ColumnBytes(left, Shift(m, right), info.lastWidth, m.width, m.bytesPerPixel);
  }

  lemma ColumnBytes(left: nat, shift: nat, last: nat, width: nat, b: nat)
    requires left + shift + last == width > 0 && b > 0
    ensures left * b + shift * b + last * b == width * b > 0 && 0 <= left * b <= width * b
  {
    Spread(left, shift, last, b);
    MulMonotone(b, left, width);
    MulMonotone(b, 1, width);
  }

  lemma LastOffset(m: Image, w: Word, h: Word, right: bool)
    requires ImageOk(m) && Halves(m) && EyeWidth(m) > 0 && m.height > 0 && right == (m.view == SideBySide)
    requires m.y < m.height && U32(m.x * m.bytesPerPixel) < 0x8000_0000
    requires InfoOf(m, w, h).countX > 0 && InfoOf(m, w, h).countY > 0
    ensures var info := InfoOf(m, w, h);
            var i, j := info.countX - 1, info.countY - 1;
            && IsCell(m, info, right, i, j)
            && Offset(m, TaskOf(m, info, right, i, j)) ==
               (m.y + j * info.height) * LineBytes(m)
               + (U32(m.x * m.bytesPerPixel) + i * info.width * m.bytesPerPixel) + Shift(m, right) * m.bytesPerPixel
  {
    var info := InfoOf(m, w, h);
    var i, j := info.countX - 1, info.countY - 1;
    LastColumns(m, w, h, right);
    PitchIs(m);
    OffsetIs(m, w, h, right, i, j);
    Fits(m.y + j * info.height);
    Fits(U32(m.x * m.bytesPerPixel) + i * info.width * m.bytesPerPixel);
  }

  lemma Fits(x: int)
    requires 0 <= x < WORD32
    ensures U32(x) == x
  {
  }

  lemma Spread(a: int, b: int, c: int, k: int)
    ensures (a + b + c) * k == a * k + b * k + c * k
  {
  }

  lemma NothingLeft(y: nat, height: nat, line: nat, top: nat, rows: nat, a: nat, left: nat, shift: nat, bytes: nat)
    requires rows > 0 && line > 0 && top + rows == height && left + shift + bytes == line
    requires (y + top) * line + (a + left) + shift + (rows - 1) * line + bytes <= height * line
    ensures y == 0 && a == 0
  {
    assert (y + top) * line + (rows - 1) * line + line == (y + height) * line by {
      assert (y + top) + (rows - 1) + 1 == y + height;
      Spread(y + top, rows - 1, 1, line);
    }
    Spread(y, height, 0, line);
    if y > 0 { MulMonotone(line, 1, y); }
  }

  /**
   * With more than one segment the copies stay inside the buffer if and only if the image begins at row 0
   * and at a column whose byte offset is 0 modulo 2^32. For RGBA that is column 0, or a multiple of 2^30.
   */
  lemma ReadableIff(m: Image, w: Word, h: Word)
    requires ImageOk(m) && Halves(m) && EyeWidth(m) > 0 && m.height > 0
    requires |AllTasks(m, InfoOf(m, w, h))| != 1
    ensures AllReadable(m, InfoOf(m, w, h)) <==> Aligned(m)
  {
    if Aligned(m) { AlignedReadable(m, w, h); }
    if AllReadable(m, InfoOf(m, w, h)) { OriginZero(m, w, h); }
  }

  /** For example an image of one column and two rows that begins in row 1, cut into single pixels. */
  lemma OriginMatters() returns (m: Image)
    ensures ImageOk(m) && !AllReadable(m, InfoOf(m, 1, 1))
  {
    m := Image([0, 0, 0, 0, 0, 0], 1, 2, 3, 0, 1, Mono, TopDown, 0);
    TwoPixels(m);
    ReadableIff(m, 1, 1);
  }

  lemma TwoPixels(m: Image)
    requires m.width == 1 && m.height == 2 && m.view == Mono
    ensures |AllTasks(m, InfoOf(m, 1, 1))| == 2
  {
    assert Ceil(1, 1) == 1 && Ceil(2, 1) == 2;
    SegmentCount(m, 1, 1);
  }

  // ---------------------------------------------------------------------------------------
  // Where the bytes come from
  // ---------------------------------------------------------------------------------------

  lemma {:induction false} LinesAt(data: seq<Byte>, offset: nat, pitch: nat, bytes: nat, rows: nat, r: nat, c: nat)
    requires rows > 0 ==> LineStart(offset, pitch, rows - 1) + bytes <= |data|
    requires r < rows && c < bytes
    ensures LineStart(offset, pitch, r) + bytes <= |data|
    ensures 0 <= r * bytes + c < |Lines(data, offset, pitch, bytes, rows)| == rows * bytes
    ensures Lines(data, offset, pitch, bytes, rows)[r * bytes + c] == data[LineStart(offset, pitch, r) + c]
  {
    LineStartGrows(offset, pitch, r, rows - 1);
    LinesLength(data, offset, pitch, bytes, rows);
    Apart(bytes, r, rows);
    MulMonotone(bytes, 0, r);
    if rows > 1 { LineStartGrows(offset, pitch, rows - 2, rows - 1); }
    LinesLength(data, offset, pitch, bytes, rows - 1);
    if r < rows - 1 { LinesAt(data, offset, pitch, bytes, rows - 1, r, c); }
  }

  lemma {:induction false} LinesLength(data: seq<Byte>, offset: nat, pitch: nat, bytes: nat, rows: nat)
    requires rows > 0 ==> LineStart(offset, pitch, rows - 1) + bytes <= |data|
    ensures |Lines(data, offset, pitch, bytes, rows)| == rows * bytes
  {
    if rows > 0 {
      if rows > 1 { LineStartGrows(offset, pitch, rows - 2, rows - 1); }
      LinesLength(data, offset, pitch, bytes, rows - 1);
      assert rows * bytes == (rows - 1) * bytes + bytes;
    }
  }

  /** The i-th segment of row j, as it is sent. */
  function SegmentAt(m: Image, info: Info, right: bool, i: nat, j: nat): Tile
    requires AllReadable(m, info) && IndexOf(info, right, i, j) < |AllTasks(m, info)|
  {
    RawSegments(m, info)[IndexOf(info, right, i, j)]
  }

  /** A raw segment says where its cell is in the stream, how big it is, and whose eye and which channel it is for. */
  lemma SegmentLabelled(m: Image, w: Word, h: Word, right: bool, i: nat, j: nat)
    requires IsCell(m, InfoOf(m, w, h), right, i, j) && AllReadable(m, InfoOf(m, w, h))
    ensures var info, region := InfoOf(m, w, h), Region(InfoOf(m, w, h), i, j);
            && IndexOf(info, right, i, j) < |AllTasks(m, info)|
            && var t := SegmentAt(m, info, right, i, j);
            && t.x == (m.x + region.left) % 0x1_0000_0000 && t.y == (m.y + region.top) % 0x1_0000_0000
            && t.width == region.width && t.height == region.height && t.format == RGBA
            && t.rowOrder == m.rowOrder && t.channel == m.channel
            && t.view == (if m.view != SideBySide then m.view else if right then RightEye else LeftEye)
  {
    TaskAt(m, InfoOf(m, w, h), right, i, j);
  }

  /** The byte of the image that belongs to byte c of line r of a cell. */
  function Source(m: Image, region: Rect, right: bool, r: nat, c: nat): int {
    (region.top + r) * LineBytes(m) + (region.left * m.bytesPerPixel + Shift(m, right) * m.bytesPerPixel) + c
  }

  /** A segment carries exactly the bytes of its region of its eye's half, line by line. */
  lemma RawByte(m: Image, w: Word, h: Word, right: bool, i: nat, j: nat, r: nat, c: nat)
    requires ImageOk(m) && Halves(m) && m.height > 0 && IsCell(m, InfoOf(m, w, h), right, i, j)
    requires Aligned(m) || (|AllTasks(m, InfoOf(m, w, h))| == 1)
    requires r < Region(InfoOf(m, w, h), i, j).height
    requires c < Region(InfoOf(m, w, h), i, j).width * m.bytesPerPixel
    ensures var info, region := InfoOf(m, w, h), Region(InfoOf(m, w, h), i, j);
            && AllReadable(m, info) && IndexOf(info, right, i, j) < |AllTasks(m, info)|
            && var data := SegmentAt(m, info, right, i, j).data;
            && |data| == region.height * (region.width * m.bytesPerPixel)
            && 0 <= r * (region.width * m.bytesPerPixel) + c < |data|
            && 0 <= Source(m, region, right, r, c) < |m.data|
            && data[r * (region.width * m.bytesPerPixel) + c] == m.data[Source(m, region, right, r, c)]
  {
    var info := InfoOf(m, w, h);
    TaskAt(m, info, right, i, j);
    if |AllTasks(m, info)| == 1 {
      AloneByte(m, w, h, right, i, j, r, c);
    } else {
      AlignedReadable(m, w, h);
      CopiedByte(m, w, h, right, i, j, r, c);
    }
  }

  lemma CopiedByte(m: Image, w: Word, h: Word, right: bool, i: nat, j: nat, r: nat, c: nat)
    requires ImageOk(m) && Halves(m) && m.height > 0 && IsCell(m, InfoOf(m, w, h), right, i, j) && Aligned(m)
    requires Readable(m, TaskOf(m, InfoOf(m, w, h), right, i, j))
    requires r < Region(InfoOf(m, w, h), i, j).height
    requires c < Region(InfoOf(m, w, h), i, j).width * m.bytesPerPixel
    ensures var region := Region(InfoOf(m, w, h), i, j);
            var data := RawData(m, TaskOf(m, InfoOf(m, w, h), right, i, j), false);
            && |data| == region.height * (region.width * m.bytesPerPixel)
            && 0 <= r * (region.width * m.bytesPerPixel) + c < |data|
            && 0 <= Source(m, region, right, r, c) < |m.data|
            && data[r * (region.width * m.bytesPerPixel) + c] == m.data[Source(m, region, right, r, c)]
  {
    var region, t := Region(InfoOf(m, w, h), i, j), TaskOf(m, InfoOf(m, w, h), right, i, j);
    LineInside(m, w, h, right, i, j, r);
    LinesAt(m.data, Offset(m, t), Pitch(m), region.width * m.bytesPerPixel, region.height, r, c);
  }

  /** A segment that is alone is the whole image. */
  lemma AloneByte(m: Image, w: Word, h: Word, right: bool, i: nat, j: nat, r: nat, c: nat)
    requires ImageOk(m) && m.height > 0 && IsCell(m, InfoOf(m, w, h), right, i, j)
    requires |AllTasks(m, InfoOf(m, w, h))| == 1
    requires r < Region(InfoOf(m, w, h), i, j).height
    requires c < Region(InfoOf(m, w, h), i, j).width * m.bytesPerPixel
    ensures var region := Region(InfoOf(m, w, h), i, j);
            && !right && region == Rect(0, 0, m.width, m.height)
            && |m.data| == region.height * (region.width * m.bytesPerPixel)
            && 0 <= r * (region.width * m.bytesPerPixel) + c < |m.data|
            && Source(m, region, right, r, c) == r * (region.width * m.bytesPerPixel) + c
  {
    var info := InfoOf(m, w, h);
    var n := info.countY * info.countX;
    assert |AllParams(m, info)| == n;
    assert m.view != SideBySide && n == 1;
    MulMonotone(info.countX, 1, info.countY);
    MulMonotone(info.countY, 1, info.countX);
    InfoPieces(m, w, h);
    PieceInside(EyeWidth(m), info.width, info.countX, info.lastWidth, 0);
    PieceInside(m.height, info.height, info.countY, info.lastHeight, 0);
    PitchIs(m);
    Apart(LineBytes(m), r, m.height);
    MulMonotone(LineBytes(m), 0, r);
  }

  // ---------------------------------------------------------------------------------------
  // Pasting back
  // ---------------------------------------------------------------------------------------

  /** Byte c of line r of a segment is found at its place in buffer b, which holds one eye's part. */
  ghost predicate PastedAt(m: Image, info: Info, right: bool, b: seq<Byte>, i: nat, j: nat, r: nat, c: nat) {
    && AllReadable(m, info) && IndexOf(info, right, i, j) < |AllTasks(m, info)|
    && var region, data := Region(info, i, j), SegmentAt(m, info, right, i, j).data;
    var from, to := r * (region.width * m.bytesPerPixel) + c, (region.top + r) * EyeBytes(m) + region.left * m.bytesPerPixel + c;
    0 <= from < |data| && 0 <= to < |b| && b[to] == data[from]
  }

  /** All segments of one eye have been pasted into b. */
  ghost predicate Pasted(m: Image, info: Info, right: bool, b: seq<Byte>) {
    forall i: nat, j: nat, r: nat, c: nat {:trigger PastedAt(m, info, right, b, i, j, r, c)} ::
      i < info.countX && j < info.countY && r < Region(info, i, j).height
      && c < Region(info, i, j).width * m.bytesPerPixel ==>
        PastedAt(m, info, right, b, i, j, r, c)
  }

  /** Whoever pastes the segments of an eye gets that part of the image back, whatever else is done to the buffer. */
  lemma PastedIsOriginal(m: Image, w: Word, h: Word, right: bool, b: seq<Byte>, row: nat, column: nat)
    requires ImageOk(m) && Halves(m) && (right ==> m.view == SideBySide)
    requires Aligned(m) || (|AllTasks(m, InfoOf(m, w, h))| == 1)
    requires Pasted(m, InfoOf(m, w, h), right, b)
    requires row < m.height && column < EyeBytes(m)
    ensures 0 <= row * EyeBytes(m) + column < |b|
    ensures 0 <= row * LineBytes(m) + Shift(m, right) * m.bytesPerPixel + column < |m.data|
    ensures b[row * EyeBytes(m) + column] == m.data[row * LineBytes(m) + Shift(m, right) * m.bytesPerPixel + column]
  {
    var i, j, r, c := Locate(m, w, h, row, column);
    RawByte(m, w, h, right, i, j, r, c);
    assert PastedAt(m, InfoOf(m, w, h), right, b, i, j, r, c);
  }

  /** The segment a byte of an eye's part belongs to, and its place in it. */
  lemma Locate(m: Image, w: Word, h: Word, row: nat, column: nat) returns (i: nat, j: nat, r: nat, c: nat)
    requires m.bytesPerPixel > 0 && row < m.height && column < EyeBytes(m)
    ensures var info := InfoOf(m, w, h);
            && i < info.countX && j < info.countY
            && r < Region(info, i, j).height && c < Region(info, i, j).width * m.bytesPerPixel
            && row == Region(info, i, j).top + r && column == Region(info, i, j).left * m.bytesPerPixel + c
  {
    var px := column / m.bytesPerPixel;
    Quotient(column, m.bytesPerPixel);
    DivLess(column, EyeWidth(m), m.bytesPerPixel);
    i, j := PixelCovered(m, w, h, px, row);
    var region := Region(InfoOf(m, w, h), i, j);
    RegionInside(m, w, h, i, j);
    ColumnInside(region.left, region.width, px, column, m.bytesPerPixel);
    r, c := row - region.top, column - region.left * m.bytesPerPixel;
  }

  lemma ColumnInside(left: int, width: nat, px: nat, column: nat, b: nat)
    requires 0 <= left <= px < left + width && b > 0 && px * b <= column < px * b + b
    ensures 0 <= column - left * b < width * b
  {
    MulMonotone(b, left, px);
    Apart(b, px, left + width);
    Spread(left, width, 0, b);
  }

  /** For an image that is not side-by-side, the buffer is the original one. */
  lemma PastedIsImage(m: Image, w: Word, h: Word, b: seq<Byte>)
    requires ImageOk(m) && m.view != SideBySide && |b| == |m.data|
    requires Aligned(m) || (|AllTasks(m, InfoOf(m, w, h))| == 1)
    requires Pasted(m, InfoOf(m, w, h), false, b)
    ensures b == m.data
  {
    forall p | 0 <= p < |b| ensures b[p] == m.data[p] {
      var row, column := Place(m, p);
      PastedIsOriginal(m, w, h, false, b, row, column);
    }
  }

  /** The line and the byte in it of a position in the buffer. */
  lemma Place(m: Image, p: nat) returns (row: nat, column: nat)
    requires ImageOk(m) && p < |m.data|
    ensures row < m.height && column < LineBytes(m) && p == row * LineBytes(m) + column
  {
    assert m.height == 0 ==> m.width * m.height == 0;
    PitchIs(m);
    assert LineBytes(m) == 0 ==> m.height * LineBytes(m) == 0;
    Quotient(p, LineBytes(m));
    DivLess(p, m.height, LineBytes(m));
    row, column := p / LineBytes(m), p % LineBytes(m);
  }
}
