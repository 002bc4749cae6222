/**
 * Frames assembled by the server (deflect/server/Frame.cpp, and FrameDispatcher.cpp's
 * mirrorTilesPositionsVertically): their size per channel, their row order, and the vertical
 * mirroring of bottom-up frames. Sums of 32-bit unsigned words wrap, and are read back as int.
 */
module Frames {
  import opened Common
  import opened Types

  const INT_LIMIT: nat := 0x8000_0000

  datatype Size = Size(width: int, height: int)

  /** (int) of a 32-bit unsigned word. */
  function AsInt(w: nat): int {
    if w < INT_LIMIT then w else w - WORD32
  }

  function Right(t: Tile): int {
    AsInt(U32(t.width + t.x))
  }

  function Bottom(t: Tile): int {
    AsInt(U32(t.height + t.y))
  }

  function Max(a: int, b: int): int {
    if a < b then b else a
  }

  /** The size that covers the tiles of a channel, starting from a given one. */
  function Extent(tiles: seq<Tile>, channel: Byte, start: Size): Size {
    if tiles == [] then start else
    var t, rest := tiles[|tiles| - 1], Extent(tiles[..|tiles| - 1], channel, start);
    if t.channel != channel then rest else Size(Max(rest.width, Right(t)), Max(rest.height, Bottom(t)))
  }

  /** What a default-constructed QSize holds. */
  const NO_SIZE: Size := Size(-1, -1)

  predicate HasChannel(tiles: seq<Tile>, channel: Byte) {
    exists i :: 0 <= i < |tiles| && tiles[i].channel == channel
  }

  datatype Order = Order(rowOrder: RowOrder) | NoTiles | Incoherent

  predicate SameOrder(tiles: seq<Tile>) {
    forall i :: 0 <= i < |tiles| ==> tiles[i].rowOrder == tiles[0].rowOrder
  }

  function OrderOf(tiles: seq<Tile>): Order {
    if tiles == [] then NoTiles else if SameOrder(tiles) then Order(tiles[0].rowOrder) else Incoherent
  }

  /** A tile turned upside down within the height of its channel; the subtraction is unsigned. */
  function Flip(tiles: seq<Tile>, t: Tile): Tile {
    t.(y := U32(Extent(tiles, t.channel, NO_SIZE).height - t.y - t.height))
  }

  function Mirrored(tiles: seq<Tile>): (r: seq<Tile>)
    ensures |r| == |tiles|
  {
    seq(|tiles|, i requires 0 <= i < |tiles| => Flip(tiles, tiles[i]))
  }

  class Frame {
    var tiles: seq<Tile>
    const uri: string

    constructor (uri: string)
      ensures this.uri == uri && tiles == []
    {
      this.uri := uri;
      tiles := [];
    }

    method ComputeDimensions(channel: Byte) returns (size: Size)
      ensures size == Extent(tiles, channel, Size(0, 0))
    {
      size := Size(0, 0);
      for i := 0 to |tiles|
        invariant size == Extent(tiles[..i], channel, Size(0, 0))
      {
        assert tiles[..i + 1][..i] == tiles[..i];
        if tiles[i].channel == channel {
          size := Size(Max(size.width, Right(tiles[i])), Max(size.height, Bottom(tiles[i])));
        }
      }
      assert tiles[..|tiles|] == tiles;
    }

    method ComputeChannelDimensions() returns (sizes: map<Byte, Size>)
      ensures forall c :: c in sizes <==> HasChannel(tiles, c)
      ensures forall c :: c in sizes ==> sizes[c] == Extent(tiles, c, NO_SIZE)
    {
      sizes := map[];
      for i := 0 to |tiles|
        invariant forall c :: c in sizes <==> HasChannel(tiles[..i], c)
        invariant forall c :: c !in sizes ==> Extent(tiles[..i], c, NO_SIZE) == NO_SIZE
        invariant forall c :: c in sizes ==> sizes[c] == Extent(tiles[..i], c, NO_SIZE)
      {
        var t := tiles[i];
        assert tiles[..i + 1][..i] == tiles[..i];
        ChannelAppend(tiles[..i], t);
        var size := if t.channel in sizes then sizes[t.channel] else NO_SIZE;
        sizes := sizes[t.channel := Size(Max(size.width, Right(t)), Max(size.height, Bottom(t)))];
        assert tiles[..i + 1] == tiles[..i] + [t];
      }
      assert tiles[..|tiles|] == tiles;
    }

    method DetermineRowOrder() returns (order: Order)
      ensures order == OrderOf(tiles)
    {
      if tiles == [] { return NoTiles; }
      for i := 0 to |tiles|
        invariant SameOrder(tiles[..i])
      {
        if tiles[i].rowOrder != tiles[0].rowOrder { return Incoherent; }
      }
      assert tiles[..|tiles|] == tiles;
      order := Order(tiles[0].rowOrder);
    }

    method MirrorTilesPositionsVertically()
      modifies this`tiles
      ensures tiles == Mirrored(old(tiles))
    {
      var sizes := ComputeChannelDimensions();
      ghost var was := tiles;
      for i := 0 to |tiles|
        invariant |tiles| == |was|
        invariant forall k :: 0 <= k < i ==> tiles[k] == Flip(was, was[k])
        invariant forall k :: i <= k < |was| ==> tiles[k] == was[k]
      {
        var t := tiles[i];
        assert HasChannel(was, t.channel);
        tiles := tiles[i := t.(y := U32(sizes[t.channel].height - t.y - t.height))];
      }
    }
  }

  lemma ChannelAppend(tiles: seq<Tile>, t: Tile)
    ensures forall c :: HasChannel(tiles + [t], c) <==> HasChannel(tiles, c) || c == t.channel
  {
    assert (tiles + [t])[|tiles|] == t;
    forall c | HasChannel(tiles, c) ensures HasChannel(tiles + [t], c) {
      var i :| 0 <= i < |tiles| && tiles[i].channel == c;
      assert (tiles + [t])[i].channel == c;
    }
  }

  // ---------------------------------------------------------------------------------------
  // Sizes
  // ---------------------------------------------------------------------------------------

  /** No coordinate sum reaches 2^31. */
  predicate SmallTiles(tiles: seq<Tile>) {
    forall i {:trigger tiles[i]} :: 0 <= i < |tiles| ==>
      tiles[i].x + tiles[i].width < INT_LIMIT && tiles[i].y + tiles[i].height < INT_LIMIT
  }

  /** Size covers the tiles of the channel, and each side is reached by a tile or is the starting one. */
  ghost predicate Fits(tiles: seq<Tile>, channel: Byte, start: Size, size: Size) {
    && start.width <= size.width && start.height <= size.height
    && (forall i {:trigger tiles[i]} :: 0 <= i < |tiles| && tiles[i].channel == channel ==>
          Right(tiles[i]) <= size.width && Bottom(tiles[i]) <= size.height)
    && (size.width == start.width || exists i :: 0 <= i < |tiles| && tiles[i].channel == channel && Right(tiles[i]) == size.width)
    && (size.height == start.height || exists i :: 0 <= i < |tiles| && tiles[i].channel == channel && Bottom(tiles[i]) == size.height)
  }

  /** The loops compute the smallest covering size. */
  lemma {:induction false} ExtentFits(tiles: seq<Tile>, channel: Byte, start: Size)
    ensures Fits(tiles, channel, start, Extent(tiles, channel, start))
  {
    if tiles != [] {
      var rest, n := tiles[..|tiles| - 1], |tiles| - 1;
      ExtentFits(rest, channel, start);
      var size, before := Extent(tiles, channel, start), Extent(rest, channel, start);
      forall i | 0 <= i < |tiles| && tiles[i].channel == channel
        ensures Right(tiles[i]) <= size.width && Bottom(tiles[i]) <= size.height {
        if i < n { assert rest[i] == tiles[i]; }
      }
      if size.width != start.width && size.width == before.width {
        var i :| 0 <= i < |rest| && rest[i].channel == channel && Right(rest[i]) == size.width;
        assert Right(tiles[i]) == size.width;
      }
      if size.height != start.height && size.height == before.height {
        var i :| 0 <= i < |rest| && rest[i].channel == channel && Bottom(rest[i]) == size.height;
        assert Bottom(tiles[i]) == size.height;
      }
    }
  }

  /**
   * computeChannelDimensions agrees with computeDimensions on a channel exactly when some tile of it
   * has a non-negative right edge and some tile a non-negative lower edge: it starts from (-1, -1).
   */
  lemma DimensionsAgreeIff(tiles: seq<Tile>, channel: Byte)
    ensures Extent(tiles, channel, NO_SIZE) == Extent(tiles, channel, Size(0, 0)) <==>
            (exists i :: 0 <= i < |tiles| && tiles[i].channel == channel && Right(tiles[i]) >= 0)
            && (exists i :: 0 <= i < |tiles| && tiles[i].channel == channel && Bottom(tiles[i]) >= 0)
  {
    ExtentFits(tiles, channel, NO_SIZE);
    ExtentFits(tiles, channel, Size(0, 0));
  }

  /** A tile whose right edge is at 2^31 reads as a negative width: -1 against 0. */
  lemma DimensionsCanDisagree(t: Tile)
    requires t.x + t.width == INT_LIMIT && t.y + t.height < INT_LIMIT
    ensures Extent([t], t.channel, NO_SIZE).width == -1 && Extent([t], t.channel, Size(0, 0)).width == 0
  {
    assert [t][..0] == [];
  }

  lemma DimensionsAgree(tiles: seq<Tile>, channel: Byte)
    requires SmallTiles(tiles) && HasChannel(tiles, channel)
    ensures Extent(tiles, channel, NO_SIZE) == Extent(tiles, channel, Size(0, 0))
  {
    var i :| 0 <= i < |tiles| && tiles[i].channel == channel;
    assert Right(tiles[i]) >= 0 && Bottom(tiles[i]) >= 0;
    DimensionsAgreeIff(tiles, channel);
  }

  // ---------------------------------------------------------------------------------------
  // Mirroring
  // ---------------------------------------------------------------------------------------

  function HeightOf(tiles: seq<Tile>, channel: Byte): int {
    Extent(tiles, channel, Size(0, 0)).height
  }

  /** Mirroring does not underflow: every tile lands inside the frame at the mirrored place. */
  lemma MirrorStaysInside(tiles: seq<Tile>, i: nat)
    requires SmallTiles(tiles) && i < |tiles|
    ensures var t, t' := tiles[i], Mirrored(tiles)[i];
            && t' == t.(y := t'.y) && t'.y == HeightOf(tiles, t.channel) - t.y - t.height
            && 0 <= t'.y && t'.y + t.height <= HeightOf(tiles, t.channel)
  {
    var t := tiles[i];
    DimensionsAgree(tiles, t.channel);
    ExtentFits(tiles, t.channel, Size(0, 0));
    assert Bottom(t) == t.y + t.height;
  }

  predicate Covers(t: Tile, row: int) {
    t.y <= row < t.y + t.height
  }

  /** A row of the frame is covered by a tile exactly if the opposite row is covered by the mirrored tile. */
  lemma MirrorRows(tiles: seq<Tile>, i: nat, row: int)
    requires SmallTiles(tiles) && i < |tiles|
    ensures Covers(tiles[i], row) <==> Covers(Mirrored(tiles)[i], HeightOf(tiles, tiles[i].channel) - 1 - row)
  {
    MirrorStaysInside(tiles, i);
  }

  /** y is the smallest y of the channel's tiles. */
  predicate IsTop(tiles: seq<Tile>, channel: Byte, y: int) {
    && (forall i {:trigger tiles[i]} :: 0 <= i < |tiles| && tiles[i].channel == channel ==> y <= tiles[i].y)
    && (exists i :: 0 <= i < |tiles| && tiles[i].channel == channel && tiles[i].y == y)
  }

  lemma MirrorSmall(tiles: seq<Tile>)
    requires SmallTiles(tiles)
    ensures SmallTiles(Mirrored(tiles))
  {
    forall i | 0 <= i < |tiles|
      ensures var t := Mirrored(tiles)[i]; t.x + t.width < INT_LIMIT && t.y + t.height < INT_LIMIT {
      MirrorStaysInside(tiles, i);
      ExtentFits(tiles, tiles[i].channel, Size(0, 0));
      assert tiles[i].x + tiles[i].width < INT_LIMIT;
    }
  }

  lemma MirrorBottom(tiles: seq<Tile>, i: nat)
    requires SmallTiles(tiles) && i < |tiles|
    ensures Bottom(Mirrored(tiles)[i]) == HeightOf(tiles, tiles[i].channel) - tiles[i].y
    ensures Mirrored(tiles)[i].channel == tiles[i].channel
  {
    MirrorStaysInside(tiles, i);
    MirrorSmall(tiles);
    var t' := Mirrored(tiles)[i];
    assert t'.y + t'.height < INT_LIMIT;
  }

  /** After mirroring, the lowest row in use is the one opposite to the topmost tile. */
  lemma MirroredHeight(tiles: seq<Tile>, channel: Byte, top: int)
    requires SmallTiles(tiles) && IsTop(tiles, channel, top)
    ensures HeightOf(Mirrored(tiles), channel) == HeightOf(tiles, channel) - top
  {
    var m, h := Mirrored(tiles), HeightOf(tiles, channel);
    ExtentFits(m, channel, Size(0, 0));
    var k :| 0 <= k < |tiles| && tiles[k].channel == channel && tiles[k].y == top;
    MirrorBottom(tiles, k);
    MirrorStaysInside(tiles, k);
    assert HeightOf(m, channel) >= Bottom(m[k]) == h - top >= 0;
    if HeightOf(m, channel) > h - top {
      var i :| 0 <= i < |m| && m[i].channel == channel && Bottom(m[i]) == HeightOf(m, channel);
      MirrorBottom(tiles, i);
    }
  }

  /** Twice mirrored, every tile is moved up by the free rows above its channel: the identity if there are none. */
  lemma MirrorTwice(tiles: seq<Tile>, i: nat, top: int)
    requires SmallTiles(tiles) && i < |tiles| && IsTop(tiles, tiles[i].channel, top)
    ensures Mirrored(Mirrored(tiles))[i] == tiles[i].(y := tiles[i].y - top)
  {
    MirrorSmall(tiles);
    MirrorStaysInside(tiles, i);
    MirrorStaysInside(Mirrored(tiles), i);
    MirroredHeight(tiles, tiles[i].channel, top);
  }
}
