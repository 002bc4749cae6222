/**
 * Cutting an image into segments (deflect/ImageSegmenter.cpp).
 *
 * Unsigned arithmetic of the original wraps at 32 bits (U32), except for byte offsets, which are
 * 64-bit. The JPEG coder is not modelled: its input is the region of the image it is given.
 */
module Segmenter {
  import opened Common
  import opened Types
  import opened Modular
  import F = Frames

  /** ImageWrapper: data holds the pixels row by row, without padding. */
  datatype Image = Image(
    data: seq<Byte>, width: Word, height: Word, bytesPerPixel: nat,
    x: Word, y: Word, view: View, rowOrder: RowOrder, channel: Byte)

  /** What the constructor of an image is promised: a buffer of that size, which int can count. */
  predicate ImageOk(m: Image) {
    && m.bytesPerPixel in {3, 4}
    && m.width < 0x8000_0000 && m.height < 0x8000_0000
    && |m.data| == m.width * m.height * m.bytesPerPixel < 0x8000_0000
  }

  /** A side-by-side image can be halved. */
  predicate Halves(m: Image) {
    m.view == SideBySide ==> m.width % 2 == 0
  }

  /** The width of the part of the image that one eye sees. */
  function EyeWidth(m: Image): Word {
    if m.view == SideBySide then m.width / 2 else m.width
  }

  datatype Info = Info(width: Word, height: Word, countX: nat, countY: nat, lastWidth: Word, lastHeight: Word)

  datatype Params = Params(x: Word, y: Word, width: Word, height: Word)

  /** A segment before its data is filled in. */
  datatype Task = Task(params: Params, view: View, rowOrder: RowOrder, channel: Byte)

  function Ceil(a: nat, b: nat): nat
    requires b > 0
  {
    (a + b - 1) / b
  }

  function Last(length: Word, nominal: Word): Word
    requires nominal > 0
  {
    if length % nominal == 0 then nominal else length % nominal
  }

  /** The numbers of columns and rows, rounded up, and the sizes of the last ones; without nominal size, one segment. */
  function InfoOf(m: Image, w: Word, h: Word): Info {
    if w == 0 || h == 0 then Info(w, h, 1, 1, EyeWidth(m), m.height)
    else Info(w, h, Ceil(EyeWidth(m), w), Ceil(m.height, h), Last(EyeWidth(m), w), Last(m.height, h))
  }

  function Cell(info: Info, x: Word, y: Word, i: nat, j: nat): Params {
    Params(U32(x + i * info.width), U32(y + j * info.height),
           if i + 1 < info.countX then info.width else info.lastWidth,
           if j + 1 < info.countY then info.height else info.lastHeight)
  }

  function Row(info: Info, x: Word, y: Word, n: nat, j: nat): (r: seq<Params>)
    ensures |r| == n
  {
    if n == 0 then [] else Row(info, x, y, n - 1, j) + [Cell(info, x, y, n - 1, j)]
  }

  function Rows(info: Info, x: Word, y: Word, n: nat): (r: seq<Params>)
    ensures |r| == n * info.countX
  {
    if n == 0 then [] else Rows(info, x, y, n - 1) + Row(info, x, y, info.countX, n - 1)
  }

  function AllParams(m: Image, info: Info): seq<Params> {
    Rows(info, m.x, m.y, info.countY)
  }

  function Tasks(m: Image, params: seq<Params>, view: View): (r: seq<Task>)
    ensures |r| == |params|
  {
    seq(|params|, k requires 0 <= k < |params| => Task(params[k], view, m.rowOrder, m.channel))
  }

  /** All segments of an image: one eye, or the left one's followed by the right one's. */
  function AllTasks(m: Image, info: Info): seq<Task> {
    var params := AllParams(m, info);
    if m.view == SideBySide then Tasks(m, params, LeftEye) + Tasks(m, params, RightEye) else Tasks(m, params, m.view)
  }

  predicate IsRight(m: Image, view: View) {
    m.view == SideBySide && view == RightEye
  }

  function Pitch(m: Image): nat {
    U32(m.width * m.bytesPerPixel)
  }

  /** Where the copy of a segment starts in the buffer. */
  function Offset(m: Image, t: Task): nat {
    t.params.y * Pitch(m) + U32(t.params.x * m.bytesPerPixel)
    + if IsRight(m, t.view) then U32(m.width / 2 * m.bytesPerPixel) else 0
  }

  /** Where line i of a segment starts: lineData after i additions of the pitch. */
  function LineStart(offset: nat, pitch: nat, i: nat): nat {
    if i == 0 then offset else LineStart(offset, pitch, i - 1) + pitch
  }

  lemma {:induction false} LineStartIs(offset: nat, pitch: nat, i: nat)
    ensures LineStart(offset, pitch, i) == offset + i * pitch
  {
    if i > 0 {
      LineStartIs(offset, pitch, i - 1);
      assert i * pitch == (i - 1) * pitch + pitch;
    }
  }

  lemma {:induction false} LineStartGrows(offset: nat, pitch: nat, i: nat, j: nat)
    requires i <= j
    ensures LineStart(offset, pitch, i) <= LineStart(offset, pitch, j)
  {
    if i < j { LineStartGrows(offset, pitch, i, j - 1); }
  }

  /** rows lines of a segment, read from offset on. */
  function Lines(data: seq<Byte>, offset: nat, pitch: nat, bytes: nat, rows: nat): seq<Byte>
    requires rows > 0 ==> LineStart(offset, pitch, rows - 1) + bytes <= |data|
  {
    if rows == 0 then []
    else
      Lines(data, offset, pitch, bytes, rows - 1)
      + data[LineStart(offset, pitch, rows - 1)..LineStart(offset, pitch, rows - 1) + bytes]
  }

  /** The copy of a segment stays inside the image buffer. */
  predicate Readable(m: Image, t: Task) {
    t.params.height > 0 ==>
      LineStart(Offset(m, t), Pitch(m), t.params.height - 1) + t.params.width * m.bytesPerPixel <= |m.data|
  }

  /** The bytes of a raw segment: the whole buffer if it is the only one. */
  function RawData(m: Image, t: Task, alone: bool): seq<Byte>
    requires alone || Readable(m, t)
  {
    if alone then m.data
    else Lines(m.data, Offset(m, t), Pitch(m), t.params.width * m.bytesPerPixel, t.params.height)
  }

  function RawSegment(m: Image, t: Task, alone: bool): Tile
    requires alone || Readable(m, t)
  {
    Tile(t.params.x, t.params.y, t.params.width, t.params.height, RGBA, t.rowOrder, t.view, t.channel,
         RawData(m, t, alone))
  }

  predicate AllReadable(m: Image, info: Info) {
    var tasks := AllTasks(m, info);
    |tasks| == 1 || forall k {:trigger tasks[k]} :: 0 <= k < |tasks| ==> Readable(m, tasks[k])
  }

  /** All segments of an image sent raw. */
  function RawSegments(m: Image, info: Info): (r: seq<Tile>)
    requires AllReadable(m, info)
    ensures |r| == |AllTasks(m, info)|
  {
    var tasks := AllTasks(m, info);
    seq(|tasks|, k requires 0 <= k < |tasks| => RawSegment(m, tasks[k], |tasks| == 1))
  }

  class ImageSegmenter {
    var nominalSegmentWidth: Word
    var nominalSegmentHeight: Word

    /** The nominal sizes are 0 until they are set: then everything is one segment. */
    constructor (width: Word, height: Word)
      ensures nominalSegmentWidth == width && nominalSegmentHeight == height
    {
      nominalSegmentWidth, nominalSegmentHeight := width, height;
    }

    method MakeSegmentationInfo(m: Image) returns (info: Info)
      ensures info == InfoOf(m, nominalSegmentWidth, nominalSegmentHeight)
    {
      var imageWidth := if m.view == SideBySide then m.width / 2 else m.width;
      var w, h := nominalSegmentWidth, nominalSegmentHeight;
      if w == 0 || h == 0 {
        return Info(w, h, 1, 1, imageWidth, m.height);
      }
      var countX: int, countY: int := U32(imageWidth / w + 1), U32(m.height / h + 1);
      var lastWidth, lastHeight := imageWidth % w, m.height % h;
      Counted(imageWidth, w);
      Counted(m.height, h);
      if lastWidth == 0 {
        lastWidth := w;
        countX := U32(countX - 1);
      }
      if lastHeight == 0 {
        lastHeight := h;
        countY := U32(countY - 1);
      }
      info := Info(w, h, countX, countY, lastWidth, lastHeight);
    }

    method MakeSegmentParameters(m: Image) returns (parameters: seq<Params>)
      ensures parameters == AllParams(m, InfoOf(m, nominalSegmentWidth, nominalSegmentHeight))
    {
      var info := MakeSegmentationInfo(m);
      parameters := [];
      for j := 0 to info.countY
        invariant parameters == Rows(info, m.x, m.y, j)
      {
        ghost var above := parameters;
        for i := 0 to info.countX
          invariant parameters == above + Row(info, m.x, m.y, i, j)
        {
          var width := if i < info.countX - 1 then info.width else info.lastWidth;
          var height := if j < info.countY - 1 then info.height else info.lastHeight;
          parameters := parameters + [Params(U32(m.x + i * info.width), U32(m.y + j * info.height), width, height)];
        }
      }
    }

    /** ok is false where the original throws: a side-by-side image whose width is odd. */
    method GenerateSegmentTasks(m: Image) returns (ok: bool, segments: seq<Task>)
      ensures ok <==> !(m.view == SideBySide && m.width % 2 != 0)
      ensures ok ==> segments == AllTasks(m, InfoOf(m, nominalSegmentWidth, nominalSegmentHeight))
    {
      var parameters := MakeSegmentParameters(m);
      var view := if m.view == SideBySide then LeftEye else m.view;
      segments := [];
      for k := 0 to |parameters|
        invariant segments == Tasks(m, parameters, view)[..k]
      {
        segments := segments + [Task(parameters[k], view, m.rowOrder, m.channel)];
      }
      if m.view == SideBySide {
        if m.width % 2 != 0 { return false, []; }
        var segmentsRight := segments;
        for k := 0 to |segments|
          invariant |segmentsRight| == |segments|
          invariant segmentsRight[..k] == Tasks(m, parameters, RightEye)[..k] && segmentsRight[k..] == segments[k..]
        {
          assert segmentsRight[k] == segmentsRight[k..][0] == segments[k];
          segmentsRight := segmentsRight[k := segmentsRight[k].(view := RightEye)];
        }
        assert segmentsRight == Tasks(m, parameters, RightEye);
        segments := segments + segmentsRight;
      }
      ok := true;
    }

    /**
     * The handler is asked for each segment in turn; answers(k) is what it says to the k-th. handled is
     * what it was given.
     */
    method GenerateRaw(m: Image, answers: nat -> bool) returns (result: Option<bool>, handled: seq<Tile>)
      requires AllReadable(m, InfoOf(m, nominalSegmentWidth, nominalSegmentHeight))
      ensures result.None? <==> m.view == SideBySide && m.width % 2 != 0
      ensures result.Some? ==>
                var all := RawSegments(m, InfoOf(m, nominalSegmentWidth, nominalSegmentHeight));
                && handled <= all
                && (forall k :: 0 <= k < |handled| - 1 ==> answers(k))
                && (if result.value then handled == all && (handled != [] ==> answers(|handled| - 1))
                    else handled != [] && !answers(|handled| - 1))
    {
      ghost var info := InfoOf(m, nominalSegmentWidth, nominalSegmentHeight);
      var ok, tasks := GenerateSegmentTasks(m);
      handled := [];
      if !ok { return None, []; }
      for k := 0 to |tasks|
        invariant handled == RawSegments(m, info)[..k]
        invariant forall n :: 0 <= n < k ==> answers(n)
      {
        var segment := FillRaw(m, tasks[k], |tasks| == 1);
        handled := handled + [segment];
        if !answers(k) { return Some(false), handled; }
      }
      result := Some(true);
    }

    /** The body of generateRaw's loop: the whole buffer for a single segment, a copy of the subregion otherwise. */
    method FillRaw(m: Image, t: Task, alone: bool) returns (segment: Tile)
      requires alone || Readable(m, t)
      ensures segment == RawSegment(m, t, alone)
    {
      var imageData := m.data;
      if !alone {
        var imagePitch := U32(m.width * m.bytesPerPixel);
        var offset := t.params.y * imagePitch + U32(t.params.x * m.bytesPerPixel);
        if IsRight(m, t.view) {
          offset := offset + U32(m.width / 2 * m.bytesPerPixel);
        }
        imageData := CopyLines(m.data, offset, imagePitch, t.params.width * m.bytesPerPixel, t.params.height);
      }
      segment := Tile(t.params.x, t.params.y, t.params.width, t.params.height, RGBA, t.rowOrder, t.view, t.channel, imageData);
    }

    /** Copies the image subregion line by line; lineData is an index into the buffer. */
    method CopyLines(data: seq<Byte>, offset: nat, imagePitch: nat, bytes: nat, height: nat) returns (imageData: seq<Byte>)
      requires height > 0 ==> LineStart(offset, imagePitch, height - 1) + bytes <= |data|
      ensures imageData == Lines(data, offset, imagePitch, bytes, height)
    {
      var lineData := offset;
      imageData := [];
      for i := 0 to height
        invariant lineData == LineStart(offset, imagePitch, i)
        invariant i > 0 ==> LineStart(offset, imagePitch, i - 1) + bytes <= |data|
        invariant imageData == Lines(data, offset, imagePitch, bytes, i)
      {
        LineStartGrows(offset, imagePitch, i, height - 1);
        imageData := imageData + data[lineData..lineData + bytes];
        lineData := lineData + imagePitch;
      }
    }
  }

  /** The counting of one direction, wrapped additions included. */
  lemma Counted(length: Word, nominal: Word)
    requires nominal > 0
    ensures Ceil(length, nominal) ==
            if length % nominal == 0 then U32(U32(length / nominal + 1) - 1) else U32(length / nominal + 1)
  {
    CeilOf(length, nominal);
    UpAndDown(length / nominal);
  }

  lemma UpAndDown(q: nat)
    requires q < WORD32
    ensures U32(U32(q + 1) - 1) == q
    ensures q + 1 < WORD32 ==> U32(q + 1) == q + 1
  {
  }

  lemma CeilOf(length: nat, nominal: nat)
    requires nominal > 0
    ensures Ceil(length, nominal) == length / nominal + if length % nominal == 0 then 0 else 1
    ensures length == length / nominal * nominal + length % nominal
    ensures length / nominal <= length
    ensures length % nominal != 0 ==> length / nominal * 2 <= length
  {
    Quotient(length, nominal);
    CeilIs(length, nominal, length / nominal, length % nominal);
    QuotientBound(length / nominal, length % nominal, nominal);
  }

  lemma CeilIs(length: nat, nominal: nat, q: nat, r: nat)
    requires length == q * nominal + r && r < nominal
    ensures (length + nominal - 1) / nominal == if r == 0 then q else q + 1
  {
    if r == 0 {
      DivUnique(length + nominal - 1, q, nominal - 1, nominal);
    } else {
      assert (q + 1) * nominal == q * nominal + nominal;
      DivUnique(length + nominal - 1, q + 1, r - 1, nominal);
    }
  }

  lemma QuotientBound(q: nat, r: nat, n: nat)
    requires r < n
    ensures q <= q * n + r && (r != 0 ==> q * 2 <= q * n + r)
  {
    MulMonotone(q, 1, n);
    if r != 0 { MulMonotone(q, 2, n); }
  }

  lemma MulMonotone(q: nat, a: nat, b: nat)
    requires a <= b
    ensures q * a <= q * b
  {
    assert q * b == q * a + q * (b - a);
  }

  // ---------------------------------------------------------------------------------------
  // One direction
  // ---------------------------------------------------------------------------------------

  ghost predicate Pieces(length: nat, nominal: nat, count: nat, last: nat) {
    || (count == 1 && last == length)
    || (nominal > 0 && count == Ceil(length, nominal)
        && last == if length % nominal == 0 then nominal else length % nominal)
  }

  function PieceSize(nominal: nat, count: nat, last: nat, i: nat): nat {
    if i + 1 < count then nominal else last
  }

  /** The pieces end inside the length, the last one at its end. */
  lemma PieceInside(length: nat, nominal: nat, count: nat, last: nat, i: nat)
    requires Pieces(length, nominal, count, last) && i < count
    ensures i * nominal + PieceSize(nominal, count, last, i) <= length
    ensures i + 1 == count ==> i * nominal + last == length
  {
    if count == 1 && last == length {
      assert i == 0;
    } else {
      CeilOf(length, nominal);
      var q := length / nominal;
      assert i * nominal + nominal == (i + 1) * nominal;
      if i + 1 <= q { MulMonotone(nominal, i + 1, q); }
    }
  }

  lemma PieceAt(length: nat, nominal: nat, count: nat, last: nat, p: nat) returns (i: nat)
    requires Pieces(length, nominal, count, last) && p < length
    ensures i < count && i * nominal <= p < i * nominal + PieceSize(nominal, count, last, i)
  {
    if count == 1 && last == length {
      i := 0;
    } else {
      var q, r := Counts(length, nominal, count, last);
      var s: nat;
      i, s := Divided(p, nominal);
      InPiece(q, r, i, s, nominal);
    }
  }

  /** The number of full pieces, and what is left over. */
  lemma Counts(length: nat, nominal: nat, count: nat, last: nat) returns (q: nat, r: nat)
    requires Pieces(length, nominal, count, last) && !(count == 1 && last == length)
    ensures nominal > 0 && length == q * nominal + r && r < nominal
    ensures if r == 0 then count == q && last == nominal else count == q + 1 && last == r
  {
    CeilOf(length, nominal);
    Quotient(length, nominal);
    q, r := length / nominal, length % nominal;
  }

  lemma Divided(a: nat, b: nat) returns (q: nat, r: nat)
    requires b > 0
    ensures a == q * b + r && r < b
  {
    Quotient(a, b);
    q, r := a / b, a % b;
  }

  lemma Quotient(a: nat, b: nat)
    requires b > 0
    ensures a == (a / b) * b + a % b && 0 <= a % b < b
  {
  }

  lemma InPiece(q: nat, r: nat, i: nat, s: nat, n: nat)
    requires r < n && s < n && i * n + s < q * n + r
    ensures i <= q && (i == q ==> s < r)
  {
    assert n * (q + 1) == q * n + n;
    if i > q { MulMonotone(n, q + 1, i); }
  }

  lemma DivLess(x: nat, a: nat, b: nat)
    requires x < a * b && b > 0
    ensures x / b < a
  {
    Quotient(x, b);
    if x / b >= a { MulMonotone(b, a, x / b); }
  }

  lemma MulLess(n: nat, i: nat, k: nat)
    requires i * n < k * n
    ensures i < k
  {
    if i >= k { MulMonotone(n, k, i); }
  }

  lemma Apart(n: nat, i: nat, k: nat)
    requires i < k
    ensures i * n + n <= k * n
  {
    MulMonotone(n, i + 1, k);
    assert n * (i + 1) == i * n + n;
  }

  /** Two pieces never overlap. */
  lemma PieceUnique(length: nat, nominal: nat, count: nat, last: nat, p: nat, i: nat, k: nat)
    requires Pieces(length, nominal, count, last) && i < count && k < count
    requires i * nominal <= p < i * nominal + PieceSize(nominal, count, last, i)
    requires k * nominal <= p < k * nominal + PieceSize(nominal, count, last, k)
    ensures i == k
  {
    if !(count == 1 && last == length) {
      CeilOf(length, nominal);
      assert PieceSize(nominal, count, last, i) <= nominal && PieceSize(nominal, count, last, k) <= nominal;
      if i < k { Apart(nominal, i, k); }
      if k < i { Apart(nominal, k, i); }
    }
  }

  // ---------------------------------------------------------------------------------------
  // The grid
  // ---------------------------------------------------------------------------------------

  datatype Rect = Rect(left: int, top: int, width: nat, height: nat)

  predicate Contains(r: Rect, px: int, py: int) {
    r.left <= px < r.left + r.width && r.top <= py < r.top + r.height
  }

  /** What the segment of column i and row j shows, in pixels of one eye's part of the image. */
  function Region(info: Info, i: nat, j: nat): Rect {
    Rect(i * info.width, j * info.height,
         PieceSize(info.width, info.countX, info.lastWidth, i), PieceSize(info.height, info.countY, info.lastHeight, j))
  }

  lemma InfoPieces(m: Image, w: Word, h: Word)
    ensures var info := InfoOf(m, w, h);
            && Pieces(EyeWidth(m), info.width, info.countX, info.lastWidth)
            && Pieces(m.height, info.height, info.countY, info.lastHeight)
  {
  }

  /** As many segments as the documentation promises: the size over the nominal size, rounded up, per eye. */
  lemma SegmentCount(m: Image, w: Word, h: Word)
    requires w > 0 && h > 0
    ensures |AllTasks(m, InfoOf(m, w, h))| ==
            (if m.view == SideBySide then 2 else 1) * (Ceil(m.height, h) * Ceil(EyeWidth(m), w))
  {
    var n := |AllParams(m, InfoOf(m, w, h))|;
    assert n == Ceil(m.height, h) * Ceil(EyeWidth(m), w);
  }

  /** Every pixel lies in a segment ... */
  lemma PixelCovered(m: Image, w: Word, h: Word, px: nat, py: nat) returns (i: nat, j: nat)
    requires px < EyeWidth(m) && py < m.height
    ensures var info := InfoOf(m, w, h); i < info.countX && j < info.countY && Contains(Region(info, i, j), px, py)
  {
    var info := InfoOf(m, w, h);
    InfoPieces(m, w, h);
    i := PieceAt(EyeWidth(m), info.width, info.countX, info.lastWidth, px);
    j := PieceAt(m.height, info.height, info.countY, info.lastHeight, py);
  }

  /** ... and in one only ... */
  lemma PixelOnce(m: Image, w: Word, h: Word, px: nat, py: nat, i: nat, j: nat, i': nat, j': nat)
    requires var info := InfoOf(m, w, h);
             && i < info.countX && j < info.countY && Contains(Region(info, i, j), px, py)
             && i' < info.countX && j' < info.countY && Contains(Region(info, i', j'), px, py)
    ensures i == i' && j == j'
  {
    var info := InfoOf(m, w, h);
    InfoPieces(m, w, h);
    PieceUnique(EyeWidth(m), info.width, info.countX, info.lastWidth, px, i, i');
    PieceUnique(m.height, info.height, info.countY, info.lastHeight, py, j, j');
  }

  /** ... and no segment reaches outside. */
  lemma RegionInside(m: Image, w: Word, h: Word, i: nat, j: nat)
    requires i < InfoOf(m, w, h).countX && j < InfoOf(m, w, h).countY
    ensures var r := Region(InfoOf(m, w, h), i, j);
            0 <= r.left && r.left + r.width <= EyeWidth(m) && 0 <= r.top && r.top + r.height <= m.height
  {
    var info := InfoOf(m, w, h);
    InfoPieces(m, w, h);
    PieceInside(EyeWidth(m), info.width, info.countX, info.lastWidth, i);
    PieceInside(m.height, info.height, info.countY, info.lastHeight, j);
    MulMonotone(info.width, 0, i);
    MulMonotone(info.height, 0, j);
  }

  lemma {:induction false} RowAt(info: Info, x: Word, y: Word, n: nat, i: nat, j: nat)
    requires i < n
    ensures Row(info, x, y, n, j)[i] == Cell(info, x, y, i, j)
  {
    if i < n - 1 { RowAt(info, x, y, n - 1, i, j); }
  }

  /** The list is row-major. */
  lemma {:induction false} RowsAt(info: Info, x: Word, y: Word, n: nat, i: nat, j: nat)
    requires i < info.countX && j < n
    ensures 0 <= j * info.countX + i < n * info.countX
    ensures Rows(info, x, y, n)[j * info.countX + i] == Cell(info, x, y, i, j)
  {
    MulMonotone(info.countX, j + 1, n);
    MulMonotone(info.countX, 0, j);
    assert (j + 1) * info.countX == j * info.countX + info.countX;
    if j < n - 1 { RowsAt(info, x, y, n - 1, i, j); } else { RowAt(info, x, y, info.countX, i, j); }
  }

  /** The position of a segment in the list of tasks. */
  function IndexOf(info: Info, right: bool, i: nat, j: nat): nat {
    (if right then info.countY * info.countX else 0) + (j * info.countX + i)
  }

  function EyeView(m: Image, right: bool): View {
    if m.view != SideBySide then m.view else if right then RightEye else LeftEye
  }

  lemma TaskAt(m: Image, info: Info, right: bool, i: nat, j: nat)
    requires i < info.countX && j < info.countY && (right ==> m.view == SideBySide)
    ensures IndexOf(info, right, i, j) < |AllTasks(m, info)|
    ensures AllTasks(m, info)[IndexOf(info, right, i, j)] ==
            Task(Cell(info, m.x, m.y, i, j), EyeView(m, right), m.rowOrder, m.channel)
  {
    RowsAt(info, m.x, m.y, info.countY, i, j);
    assert |AllParams(m, info)| == info.countY * info.countX;
  }

  /** Every task is one of those. */
  lemma TaskIs(m: Image, info: Info, k: nat) returns (right: bool, i: nat, j: nat)
    requires k < |AllTasks(m, info)|
    ensures i < info.countX && j < info.countY && (right ==> m.view == SideBySide)
    ensures k == IndexOf(info, right, i, j)
  {
    var n := info.countY * info.countX;
    assert |AllParams(m, info)| == n;
    right := k >= n;
    var rest := if right then k - n else k;
    assert info.countX == 0 ==> n == 0;
    j, i := Divided(rest, info.countX);
    MulLess(info.countX, j, info.countY);
  }

  // ---------------------------------------------------------------------------------------
  // Regions for the JPEG coder
  // ---------------------------------------------------------------------------------------

  /** imageRegion of computeJpeg: the origin is subtracted again, in unsigned arithmetic. */
  function JpegRegion(m: Image, t: Task): Rect {
    Rect(F.AsInt(U32(t.params.x - m.x)) + (if IsRight(m, t.view) then m.width / 2 else 0),
         F.AsInt(U32(t.params.y - m.y)), t.params.width, t.params.height)
  }

  /** Wherever the image is placed in the stream, and even if its coordinates wrap, the region is the segment's part of it. */
  lemma JpegRegionIsRegion(m: Image, w: Word, h: Word, right: bool, i: nat, j: nat)
    requires m.width < F.INT_LIMIT && m.height < F.INT_LIMIT
    requires i < InfoOf(m, w, h).countX && j < InfoOf(m, w, h).countY && (right ==> m.view == SideBySide)
    ensures var info := InfoOf(m, w, h);
            && IndexOf(info, right, i, j) < |AllTasks(m, info)|
            && JpegRegion(m, AllTasks(m, info)[IndexOf(info, right, i, j)]) ==
               Region(info, i, j).(left := Region(info, i, j).left + if right then EyeWidth(m) else 0)
  {
    var info := InfoOf(m, w, h);
    TaskAt(m, info, right, i, j);
    RegionInside(m, w, h, i, j);
    Unwrapped(m.x, i * info.width);
    Unwrapped(m.y, j * info.height);
  }

  lemma Unwrapped(origin: Word, d: int)
    requires 0 <= d < F.INT_LIMIT
    ensures F.AsInt(U32(U32(origin + d) - origin)) == d
  {
    if origin + d < WORD32 { assert U32(origin + d) == origin + d; } else { assert U32(origin + d) == origin + d - WORD32; }
  }

  // ---------------------------------------------------------------------------------------
  // The size the server computes
  // ---------------------------------------------------------------------------------------

  /** tiles are the segments of an image, in any coding. */
  ghost predicate TilesOf(m: Image, info: Info, tiles: seq<Tile>) {
    && |tiles| == |AllTasks(m, info)|
    && forall k {:trigger tiles[k]} :: 0 <= k < |tiles| ==>
         var p := AllTasks(m, info)[k].params;
         tiles[k].x == p.x && tiles[k].y == p.y && tiles[k].width == p.width && tiles[k].height == p.height
         && tiles[k].channel == m.channel
  }

  lemma TileEdges(m: Image, w: Word, h: Word, tiles: seq<Tile>, right: bool, i: nat, j: nat)
    requires TilesOf(m, InfoOf(m, w, h), tiles)
    requires m.x + EyeWidth(m) < F.INT_LIMIT && m.y + m.height < F.INT_LIMIT
    requires i < InfoOf(m, w, h).countX && j < InfoOf(m, w, h).countY && (right ==> m.view == SideBySide)
    ensures var info := InfoOf(m, w, h);
            && IndexOf(info, right, i, j) < |tiles|
            && F.Right(tiles[IndexOf(info, right, i, j)]) == m.x + Region(info, i, j).left + Region(info, i, j).width
            && F.Bottom(tiles[IndexOf(info, right, i, j)]) == m.y + Region(info, i, j).top + Region(info, i, j).height
  {
    var info := InfoOf(m, w, h);
    var r := Region(info, i, j);
    TileIs(m, info, tiles, right, i, j);
    RegionInside(m, w, h, i, j);
    SmallSum(m.x, r.left, r.width);
    SmallSum(m.y, r.top, r.height);
  }

  lemma TileIs(m: Image, info: Info, tiles: seq<Tile>, right: bool, i: nat, j: nat)
    requires TilesOf(m, info, tiles)
    requires i < info.countX && j < info.countY && (right ==> m.view == SideBySide)
    ensures IndexOf(info, right, i, j) < |tiles|
    ensures var r, t := Region(info, i, j), tiles[IndexOf(info, right, i, j)];
            t.x == U32(m.x + r.left) && t.y == U32(m.y + r.top) && t.width == r.width && t.height == r.height
  {
    TaskAt(m, info, right, i, j);
  }

  lemma SmallSum(origin: Word, d: int, size: Word)
    requires 0 <= d && origin + d + size < F.INT_LIMIT
    ensures F.AsInt(U32(size + U32(origin + d))) == origin + d + size
  {
  }

  /** The server finds the image's place and the size of one eye's part again. */
  lemma DimensionsOfSegments(m: Image, w: Word, h: Word, tiles: seq<Tile>)
    requires TilesOf(m, InfoOf(m, w, h), tiles)
    requires EyeWidth(m) > 0 && m.height > 0
    requires m.x + EyeWidth(m) < F.INT_LIMIT && m.y + m.height < F.INT_LIMIT
    ensures F.Extent(tiles, m.channel, F.Size(0, 0)) == F.Size(m.x + EyeWidth(m), m.y + m.height)
  {
    var info := InfoOf(m, w, h);
    F.ExtentFits(tiles, m.channel, F.Size(0, 0));
    var size := F.Extent(tiles, m.channel, F.Size(0, 0));
    var i, j := PixelCovered(m, w, h, EyeWidth(m) - 1, m.height - 1);
    TileEdges(m, w, h, tiles, false, i, j);
    RegionInside(m, w, h, i, j);
    assert size.width >= m.x + EyeWidth(m) && size.height >= m.y + m.height;
    if size.width > m.x + EyeWidth(m) {
      var k :| 0 <= k < |tiles| && tiles[k].channel == m.channel && F.Right(tiles[k]) == size.width;
      EdgeInside(m, w, h, tiles, k);
    }
    if size.height > m.y + m.height {
      var k :| 0 <= k < |tiles| && tiles[k].channel == m.channel && F.Bottom(tiles[k]) == size.height;
      EdgeInside(m, w, h, tiles, k);
    }
  }

  lemma EdgeInside(m: Image, w: Word, h: Word, tiles: seq<Tile>, k: nat)
    requires TilesOf(m, InfoOf(m, w, h), tiles) && k < |tiles|
    requires m.x + EyeWidth(m) < F.INT_LIMIT && m.y + m.height < F.INT_LIMIT
    ensures F.Right(tiles[k]) <= m.x + EyeWidth(m) && F.Bottom(tiles[k]) <= m.y + m.height
  {
    var right, i, j := TaskIs(m, InfoOf(m, w, h), k);
    TileEdges(m, w, h, tiles, right, i, j);
    RegionInside(m, w, h, i, j);
  }
}
