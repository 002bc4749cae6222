/**
 * Segments as messages (deflect/StreamSendWorker.cpp, sendSegment): view, row order and channel are
 * sent only when they change, in messages of their own, and the server keeps them as state. The
 * decoder is module ServerWorkers.
 */
module DeltaCodec {
  import opened Common
  import opened Types
  import opened Wire
  import opened ServerWorkers

  /** What the send thread is told to send, in order. */
  datatype Item = Segment(tile: Tile) | Finish

  /** What the sender believes the server to assume. */
  datatype Context = Context(view: View, rowOrder: RowOrder, channel: Byte)

  const NEW_CONTEXT: Context := Context(Mono, TopDown, 0)

  function ViewMessage(id: Uri, v: View): Message {
    Message(IMAGE_VIEW, id, [ViewByte(v)])
  }

  function OrderMessage(id: Uri, o: RowOrder): Message {
    Message(IMAGE_ROW_ORDER, id, LittleEndian(OrderWord(o)))
  }

  function ChannelMessage(id: Uri, c: Byte): Message {
    Message(IMAGE_CHANNEL, id, [c])
  }

  function TileMessage(id: Uri, t: Tile): Message {
    Message(PIXELSTREAM, id, ParametersBytes(t) + t.data)
  }

  /** The state messages a tile needs. */
  function Changes(id: Uri, c: Context, t: Tile): seq<Message> {
    IfNeeded(t.view != c.view, ViewMessage(id, t.view)) + IfNeeded(t.rowOrder != c.rowOrder, OrderMessage(id, t.rowOrder))
    + IfNeeded(t.channel != c.channel, ChannelMessage(id, t.channel))
  }

  function IfNeeded(needed: bool, m: Message): seq<Message> {
    if needed then [m] else []
  }

  function Encoded(id: Uri, c: Context, item: Item): seq<Message> {
    match item
    case Segment(t) => Changes(id, c, t) + [TileMessage(id, t)]
    case Finish => [Message(FINISH_FRAME, id, [])]
  }

  function After(c: Context, item: Item): Context {
    match item
    case Segment(t) => Context(t.view, t.rowOrder, t.channel)
    case Finish => c
  }

  function ContextOf(items: seq<Item>): Context {
    if items == [] then NEW_CONTEXT else After(ContextOf(items[..|items| - 1]), items[|items| - 1])
  }

  /** All messages for the items, when nothing fails. */
  function Sent(id: Uri, items: seq<Item>): seq<Message> {
    if items == [] then []
    else Sent(id, items[..|items| - 1]) + Encoded(id, ContextOf(items[..|items| - 1]), items[|items| - 1])
  }

  /** What the server should report for an item. */
  function Outcome(id: Uri, item: Item): Signal {
    match item
    case Segment(t) => ReceivedTile(id, t)
    case Finish => ReceivedFrameFinished(id)
  }

  function Outcomes(id: Uri, items: seq<Item>): (r: seq<Signal>)
    ensures |r| == |items|
  {
    seq(|items|, k requires 0 <= k < |items| => Outcome(id, items[k]))
  }

  // ---------------------------------------------------------------------------------------
  // The sender
  // ---------------------------------------------------------------------------------------

  function Min(a: nat, b: nat): nat {
    if a < b then a else b
  }

  /** Once a send has failed, all later ones do. */
  class StreamSendWorker {
    const id: Uri
    ghost const limit: nat             // how many messages the connection takes
    var room: nat                      // how many it still takes
    var delivered: seq<Message>
    var currentView: View
    var currentRowOrder: RowOrder
    var currentChannel: Byte
    ghost var items: seq<Item>         // what it was told to send

    ghost predicate Valid()
      reads this
    {
      && |delivered| + room == limit
      && delivered == Sent(id, items)[..Min(limit, |Sent(id, items)|)]
      && (|Sent(id, items)| <= limit ==> Context(currentView, currentRowOrder, currentChannel) == ContextOf(items))
    }

    constructor (id: Uri, limit: nat)
      ensures Valid() && this.id == id && this.limit == limit && items == []
    {
      this.id, this.limit, room := id, limit, limit;
      delivered, items := [], [];
      currentView, currentRowOrder, currentChannel := Mono, TopDown, 0;
    }

    method Send(m: Message) returns (ok: bool)
      modifies this`room, this`delivered
      ensures ok == (old(room) > 0)
      ensures delivered == if ok then old(delivered) + [m] else old(delivered)
      ensures room == if ok then old(room) - 1 else old(room)
    {
      ok := room > 0;
      if ok {
        delivered, room := delivered + [m], room - 1;
      }
    }

    method SendSegment(segment: Tile) returns (ok: bool)
      requires Valid()
      modifies this
      ensures Valid() && items == old(items) + [Segment(segment)]
      ensures ok <==> |Sent(id, items)| <= limit
    {
      ghost var context, before := Context(currentView, currentRowOrder, currentChannel), delivered;
      ghost var all := Encoded(id, context, Segment(segment));
      ok := EncodeSegment(segment);
      items := items + [Segment(segment)];
      assert items[..|items| - 1] == old(items);
      PrefixGrows(Sent(id, old(items)), all, Encoded(id, ContextOf(old(items)), Segment(segment)), before, delivered, limit);
    }

    /** sendSegment itself: results of the row order and channel messages are ignored. */
    method EncodeSegment(segment: Tile) returns (ok: bool)
      modifies this`room, this`delivered, this`currentView, this`currentRowOrder, this`currentChannel
      ensures var all := Encoded(id, old(Context(currentView, currentRowOrder, currentChannel)), Segment(segment));
              && delivered == old(delivered) + all[..Min(old(room), |all|)] && room == old(room) - Min(old(room), |all|)
              && (ok <==> |all| <= old(room))
              && (ok ==> Context(currentView, currentRowOrder, currentChannel)
                         == Context(segment.view, segment.rowOrder, segment.channel))
    {
      if segment.view != currentView {
        ok := Send(ViewMessage(id, segment.view));
        if !ok { return; }
        currentView := segment.view;
      }
      ok := SendRest(segment);
    }

    /** What follows the view: results of the row order and channel messages are ignored. */
    method SendRest(segment: Tile) returns (ok: bool)
      modifies this`room, this`delivered, this`currentRowOrder, this`currentChannel
      ensures var all := IfNeeded(segment.rowOrder != old(currentRowOrder), OrderMessage(id, segment.rowOrder))
                         + IfNeeded(segment.channel != old(currentChannel), ChannelMessage(id, segment.channel))
                         + [TileMessage(id, segment)];
              && delivered == old(delivered) + all[..Min(old(room), |all|)] && room == old(room) - Min(old(room), |all|)
              && (ok <==> |all| <= old(room))
              && (ok ==> currentRowOrder == segment.rowOrder && currentChannel == segment.channel)
    {
      var ignored := SendRowOrderIfChanged(segment.rowOrder);
      ignored := SendImageChannelIfChanged(segment.channel);
      ok := Send(TileMessage(id, segment));
    }

    method SendRowOrderIfChanged(rowOrder: RowOrder) returns (ok: bool)
      modifies this`room, this`delivered, this`currentRowOrder
      ensures var all := IfNeeded(rowOrder != old(currentRowOrder), OrderMessage(id, rowOrder));
              && delivered == old(delivered) + all[..Min(old(room), |all|)] && room == old(room) - Min(old(room), |all|)
              && (ok <==> |all| <= old(room)) && (ok ==> currentRowOrder == rowOrder)
    {
      ok := true;
      if rowOrder != currentRowOrder {
        ok := Send(OrderMessage(id, rowOrder));
        if !ok { return; }
        currentRowOrder := rowOrder;
      }
    }

    method SendImageChannelIfChanged(channel: Byte) returns (ok: bool)
      modifies this`room, this`delivered, this`currentChannel
      ensures var all := IfNeeded(channel != old(currentChannel), ChannelMessage(id, channel));
              && delivered == old(delivered) + all[..Min(old(room), |all|)] && room == old(room) - Min(old(room), |all|)
              && (ok <==> |all| <= old(room)) && (ok ==> currentChannel == channel)
    {
      ok := true;
      if channel != currentChannel {
        ok := Send(ChannelMessage(id, channel));
        if !ok { return; }
        currentChannel := channel;
      }
    }

    method SendFinish() returns (ok: bool)
      requires Valid()
      modifies this
      ensures Valid() && items == old(items) + [Finish]
      ensures ok <==> |Sent(id, items)| <= limit
    {
      ghost var before, all := delivered, [Message(FINISH_FRAME, id, [])];
      ok := Send(Message(FINISH_FRAME, id, []));
      OneFits(all, old(room));
      assert delivered == before + all[..Min(old(room), 1)];
      items := items + [Finish];
      assert items[..|items| - 1] == old(items);
      PrefixGrows(Sent(id, old(items)), all, all, before, delivered, limit);
    }
  }

  lemma OneFits(all: seq<Message>, room: nat)
    requires |all| == 1
    ensures all[..Min(room, 1)] == if room > 0 then [all[0]] else []
  {
  }

  /** Delivering as much as fits of one item after as much as fits of the others. */
  lemma PrefixGrows(sent: seq<Message>, all: seq<Message>, wanted: seq<Message>,
                    before: seq<Message>, after: seq<Message>, limit: nat)
    requires before == sent[..Min(limit, |sent|)]
    requires after == before + all[..Min(limit - |before|, |all|)]
    requires |sent| <= limit ==> all == wanted
    ensures after == (sent + wanted)[..Min(limit, |sent + wanted|)]
  {
    if |sent| <= limit {
      assert before == sent;
    } else {
      assert all[..0] == [];
      assert before == (sent + wanted)[..limit];
    }
  }

  // ---------------------------------------------------------------------------------------
  // The round trip
  // ---------------------------------------------------------------------------------------

  lemma {:induction false} HandleMore(p: Protocol, a: seq<Message>, b: seq<Message>)
    ensures HandleAll(p, a + b) == HandleAll(HandleAll(p, a), b)
  {
    if b == [] {
      assert a + b == a;
    } else {
      assert (a + b)[..|a + b| - 1] == a + b[..|b| - 1];
      HandleMore(p, a, b[..|b| - 1]);
    }
  }

  lemma ParametersRoundTrip(p: Protocol, t: Tile)
    ensures ParseTile(p, ParametersBytes(t) + t.data) == t.(rowOrder := p.rowOrder, view := p.view, channel := p.channel)
  {
    var b := ParametersBytes(t) + t.data;
    assert b[..4] == LittleEndian(t.x) && b[4..8] == LittleEndian(t.y) && b[8..12] == LittleEndian(t.width)
      && b[12..16] == LittleEndian(t.height) && b[16] == t.format && b[PARAMETERS_SIZE..] == t.data;
    LittleEndianRoundTrip(t.x);
    LittleEndianRoundTrip(t.y);
    LittleEndianRoundTrip(t.width);
    LittleEndianRoundTrip(t.height);
  }

  /** The server's state is what the sender believes; a side-by-side view would not be taken over. */
  ghost predicate InStep(p: Protocol, c: Context) {
    && Started(p) && p.view != SideBySide && p.rowOrder == c.rowOrder && p.channel == c.channel
    && (c.view != SideBySide ==> p.view == c.view)
  }

  function Seen(current: View, v: View): View {
    if v == SideBySide then current else v
  }

  lemma StateMessages(p: Protocol, id: Uri, v: View, o: RowOrder, c: Byte)
    requires Started(p)
    ensures Handle(p, ViewMessage(id, v)) == p.(view := Seen(p.view, v))
    ensures Handle(p, OrderMessage(id, o)) == p.(rowOrder := o)
    ensures Handle(p, ChannelMessage(id, c)) == p.(channel := c)
  {
    assert LittleEndian(OrderWord(o))[..4] == LittleEndian(OrderWord(o));
    LittleEndianRoundTrip(OrderWord(o));
  }

  /** One state message, if it is needed at all. */
  lemma OneChange(p: Protocol, m: Message, needed: bool)
    ensures HandleAll(p, IfNeeded(needed, m)) == if needed then Handle(p, m) else p
  {
    if needed { assert [m][..0] == []; }
  }

  /** The state messages bring the server up to date. */
  lemma ChangesHandled(p: Protocol, id: Uri, c: Context, t: Tile)
    requires InStep(p, c)
    ensures HandleAll(p, Changes(id, c, t)) ==
            p.(view := if t.view != c.view then Seen(p.view, t.view) else p.view, rowOrder := t.rowOrder, channel := t.channel)
  {
    var a := IfNeeded(t.view != c.view, ViewMessage(id, t.view));
    var b := IfNeeded(t.rowOrder != c.rowOrder, OrderMessage(id, t.rowOrder));
    var d := IfNeeded(t.channel != c.channel, ChannelMessage(id, t.channel));
    StateMessages(p, id, t.view, t.rowOrder, t.channel);
    OneChange(p, ViewMessage(id, t.view), t.view != c.view);
    var p1 := HandleAll(p, a);
    StateMessages(p1, id, t.view, t.rowOrder, t.channel);
    OneChange(p1, OrderMessage(id, t.rowOrder), t.rowOrder != c.rowOrder);
    var p2 := HandleAll(p1, b);
    StateMessages(p2, id, t.view, t.rowOrder, t.channel);
    OneChange(p2, ChannelMessage(id, t.channel), t.channel != c.channel);
    HandleMore(p, a, b);
    HandleMore(p, a + b, d);
  }

  predicate IsStateMessage(m: Message) {
    m.kind == IMAGE_VIEW || m.kind == IMAGE_ROW_ORDER || m.kind == IMAGE_CHANNEL
  }

  ghost predicate OnlyState(ms: seq<Message>) {
    forall k {:trigger ms[k]} :: 0 <= k < |ms| ==> IsStateMessage(ms[k])
  }

  lemma StateReportsNothing(p: Protocol, m: Message)
    requires Started(p) && IsStateMessage(m)
    ensures Handle(p, m).signals == p.signals && Started(Handle(p, m))
  {
  }

  /** They make it report nothing, however many of them arrive. */
  lemma {:induction false} QuietMessages(p: Protocol, ms: seq<Message>, n: nat)
    requires Started(p) && OnlyState(ms) && n <= |ms|
    ensures HandleAll(p, ms[..n]).signals == p.signals && Started(HandleAll(p, ms[..n]))
  {
    if n > 0 {
      QuietMessages(p, ms, n - 1);
      assert ms[..n][..n - 1] == ms[..n - 1];
      StateReportsNothing(HandleAll(p, ms[..n - 1]), ms[n - 1]);
    }
  }

  /** What the server reports for an item it has been told all about. */
  function Reported(p: Protocol, c: Context, item: Item): Signal {
    match item
    case Segment(t) => ReceivedTile(p.streamId, t.(view := if t.view != c.view then Seen(p.view, t.view) else p.view))
    case Finish => ReceivedFrameFinished(p.streamId)
  }

  lemma TileHandled(p: Protocol, id: Uri, t: Tile)
    requires Started(p)
    ensures Handle(p, TileMessage(id, t)) ==
            Emit(p, ReceivedTile(p.streamId, t.(rowOrder := p.rowOrder, view := p.view, channel := p.channel)))
  {
    ParametersRoundTrip(p, t);
  }

  lemma FinishHandled(p: Protocol, id: Uri)
    requires Started(p)
    ensures HandleAll(p, [Message(FINISH_FRAME, id, [])]) == Emit(p, ReceivedFrameFinished(p.streamId))
  {
    HandleOne(p, [], Message(FINISH_FRAME, id, []));
    assert [] + [Message(FINISH_FRAME, id, [])] == [Message(FINISH_FRAME, id, [])];
  }

  lemma SegmentHandled(p: Protocol, id: Uri, c: Context, t: Tile)
    requires InStep(p, c)
    ensures var view := if t.view != c.view then Seen(p.view, t.view) else p.view;
            HandleAll(p, Changes(id, c, t) + [TileMessage(id, t)]) ==
            Emit(p, ReceivedTile(p.streamId, t.(view := view))).(view := view, rowOrder := t.rowOrder, channel := t.channel)
  {
    ChangesHandled(p, id, c, t);
    var q := HandleAll(p, Changes(id, c, t));
    HandleOne(p, Changes(id, c, t), TileMessage(id, t));
    TileHandled(q, id, t);
  }

  /** One signal per item, and the server stays in step. */
  lemma ItemHandled(p: Protocol, id: Uri, c: Context, item: Item)
    requires InStep(p, c)
    ensures var p' := HandleAll(p, Encoded(id, c, item));
            && InStep(p', After(c, item)) && p'.streamId == p.streamId
            && p'.signals == p.signals + [Reported(p, c, item)]
  {
    match item {
      case Segment(t) => SegmentHandled(p, id, c, t);
      case Finish => FinishHandled(p, id);
    }
  }

  /** Fewer messages than the item needs: nothing is reported. */
  lemma PartOfItem(p: Protocol, id: Uri, c: Context, item: Item, n: nat)
    requires Started(p) && n < |Encoded(id, c, item)|
    ensures HandleAll(p, Encoded(id, c, item)[..n]).signals == p.signals
  {
    match item {
      case Segment(t) =>
        var changes := Changes(id, c, t);
        FirstPart(changes, TileMessage(id, t), n);
        QuietMessages(p, changes, n);
      case Finish =>
        assert Encoded(id, c, item)[..n] == [];
    }
  }

  lemma FirstPart<T>(ms: seq<T>, m: T, n: nat)
    requires n <= |ms|
    ensures (ms + [m])[..n] == ms[..n]
  {
  }

  predicate OneEyed(items: seq<Item>) {
    forall k :: 0 <= k < |items| && items[k].Segment? ==> items[k].tile.view != SideBySide
  }

  /** What the server reports: as many signals as there are items, each right unless its tile is marked side-by-side. */
  ghost predicate Reports(p: Protocol, p0: Protocol, items: seq<Item>) {
    && |p.signals| == |p0.signals| + |items| && p.signals[..|p0.signals|] == p0.signals
    && p.streamId == p0.streamId
    && (forall k {:trigger items[k]} :: 0 <= k < |items| ==>
          var s := p.signals[|p0.signals| + k];
          if items[k].Segment? && items[k].tile.view == SideBySide then s != Outcome(p0.streamId, items[k])
          else s == Outcome(p0.streamId, items[k]))
  }

  /** The server after all messages for the items. */
  function ServerAfter(p0: Protocol, id: Uri, items: seq<Item>): Protocol {
    HandleAll(p0, Sent(id, items))
  }

  lemma OneMoreItem(p0: Protocol, id: Uri, items: seq<Item>)
    requires items != []
    ensures ServerAfter(p0, id, items) ==
            HandleAll(ServerAfter(p0, id, items[..|items| - 1]),
                      Encoded(id, ContextOf(items[..|items| - 1]), items[|items| - 1]))
  {
    HandleMore(p0, Sent(id, items[..|items| - 1]), Encoded(id, ContextOf(items[..|items| - 1]), items[|items| - 1]));
  }

  ghost predicate UpToDate(p: Protocol, p0: Protocol, items: seq<Item>) {
    InStep(p, ContextOf(items)) && Reports(p, p0, items)
  }

  lemma {:induction false} AllHandled(p0: Protocol, id: Uri, items: seq<Item>)
    requires InStep(p0, NEW_CONTEXT)
    ensures UpToDate(ServerAfter(p0, id, items), p0, items)
  {
    if items == [] {
      assert ServerAfter(p0, id, items) == p0;
    } else {
      var before := items[..|items| - 1];
      AllHandled(p0, id, before);
      OneMoreItem(p0, id, items);
      ItemAdds(ServerAfter(p0, id, before), p0, id, items);
    }
  }

  lemma ItemAdds(p: Protocol, p0: Protocol, id: Uri, items: seq<Item>)
    requires items != [] && UpToDate(p, p0, items[..|items| - 1])
    ensures UpToDate(HandleAll(p, Encoded(id, ContextOf(items[..|items| - 1]), items[|items| - 1])), p0, items)
  {
    var before, item, c := items[..|items| - 1], items[|items| - 1], ContextOf(items[..|items| - 1]);
    ItemHandled(p, id, c, item);
    ReportMore(p, p0, before, item, c, HandleAll(p, Encoded(id, c, item)));
    assert before + [item] == items;
  }

  lemma ReportMore(p: Protocol, p0: Protocol, before: seq<Item>, item: Item, c: Context, p': Protocol)
    requires Reports(p, p0, before) && InStep(p, c)
    requires p'.signals == p.signals + [Reported(p, c, item)] && p'.streamId == p.streamId
    ensures Reports(p', p0, before + [item])
  {
    var items := before + [item];
    forall k | 0 <= k < |items|
      ensures var s := p'.signals[|p0.signals| + k];
              if items[k].Segment? && items[k].tile.view == SideBySide then s != Outcome(p0.streamId, items[k])
              else s == Outcome(p0.streamId, items[k]) {
      if k < |before| { assert before[k] == items[k]; }
    }
  }

  /**
   * The round trip: although state is sent only on change, the server reports every tile with all its
   * parameters, and every finish, in the order of sending, if and only if no tile is marked
   * side-by-side. The segmenter never marks one so.
   */
  lemma RoundTripIff(p0: Protocol, id: Uri, items: seq<Item>)
    requires InStep(p0, NEW_CONTEXT)
    ensures ServerAfter(p0, id, items).signals == p0.signals + Outcomes(p0.streamId, items) <==> OneEyed(items)
  {
    AllHandled(p0, id, items);
    ReportedIff(ServerAfter(p0, id, items), p0, items);
  }

  /** For example a single tile with that mark, the first thing after the opening. */
  lemma SideBySideIsLost(p0: Protocol, t: Tile)
    requires InStep(p0, NEW_CONTEXT) && t.view == SideBySide
    ensures ServerAfter(p0, p0.streamId, [Segment(t)]).signals != p0.signals + [ReceivedTile(p0.streamId, t)]
  {
    var items := [Segment(t)];
    RoundTripIff(p0, p0.streamId, items);
    assert items[0].tile.view == SideBySide;
    assert Outcomes(p0.streamId, items) == [ReceivedTile(p0.streamId, t)];
  }

  lemma ReportedIff(p: Protocol, p0: Protocol, items: seq<Item>)
    requires Reports(p, p0, items)
    ensures p.signals == p0.signals + Outcomes(p0.streamId, items) <==> OneEyed(items)
  {
    var all := p0.signals + Outcomes(p0.streamId, items);
    if p.signals == all {
      forall k | 0 <= k < |items| && items[k].Segment? ensures items[k].tile.view != SideBySide {
        assert p.signals[|p0.signals| + k] == all[|p0.signals| + k] == Outcome(p0.streamId, items[k]);
      }
    }
    if OneEyed(items) {
      forall k | 0 <= k < |p.signals| ensures p.signals[k] == all[k] {
        if k < |p0.signals| { assert p.signals[k] == p.signals[..|p0.signals|][k]; }
        else { assert items[k - |p0.signals|] == items[k - |p0.signals|]; }
      }
    }
  }

  /** The items that n messages convey completely. */
  function Conveyed(id: Uri, items: seq<Item>, n: nat): (k: nat)
    requires n <= |Sent(id, items)|
    ensures k <= |items|
  {
    if items == [] || n == |Sent(id, items)| then |items|
    else if n < |Sent(id, items[..|items| - 1])| then Conveyed(id, items[..|items| - 1], n)
    else |items| - 1
  }

  /** When the connection breaks after n messages, the server has reported a prefix: the items conveyed completely. */
  lemma {:induction false} PrefixReported(p0: Protocol, id: Uri, items: seq<Item>, n: nat)
    requires InStep(p0, NEW_CONTEXT) && OneEyed(items) && n <= |Sent(id, items)|
    ensures HandleAll(p0, Sent(id, items)[..n]).signals ==
            p0.signals + Outcomes(p0.streamId, items[..Conveyed(id, items, n)])
  {
    if n == |Sent(id, items)| {
      RoundTripIff(p0, id, items);
      assert Sent(id, items)[..n] == Sent(id, items) && items[..|items|] == items;
    } else if n < |Sent(id, items[..|items| - 1])| {
      PrefixReported(p0, id, items[..|items| - 1], n);
      EarlierItems(id, items, n);
    } else {
      BrokenItem(p0, id, items, n);
    }
  }

  /** A break before the last item leaves the same messages and the same items. */
  lemma EarlierItems(id: Uri, items: seq<Item>, n: nat)
    requires items != [] && n < |Sent(id, items[..|items| - 1])|
    ensures n <= |Sent(id, items)| && Sent(id, items)[..n] == Sent(id, items[..|items| - 1])[..n]
    ensures items[..Conveyed(id, items, n)] ==
            items[..|items| - 1][..Conveyed(id, items[..|items| - 1], n)]
  {
    var sent, more := Sent(id, items[..|items| - 1]), Encoded(id, ContextOf(items[..|items| - 1]), items[|items| - 1]);
    assert (sent + more)[..n] == sent[..n];
  }

  /** The break is inside the last item. */
  lemma BrokenItem(p0: Protocol, id: Uri, items: seq<Item>, n: nat)
    requires InStep(p0, NEW_CONTEXT) && OneEyed(items) && items != []
    requires |Sent(id, items[..|items| - 1])| <= n < |Sent(id, items)|
    ensures HandleAll(p0, Sent(id, items)[..n]).signals == p0.signals + Outcomes(p0.streamId, items[..|items| - 1])
  {
    var before, item := items[..|items| - 1], items[|items| - 1];
    var sent, c := Sent(id, before), ContextOf(before);
    var part := Encoded(id, c, item)[..n - |sent|];
    AllHandled(p0, id, before);
    RoundTripIff(p0, id, before);
    PartOfItem(ServerAfter(p0, id, before), id, c, item, n - |sent|);
    assert Sent(id, items)[..n] == sent + part;
    HandleMore(p0, sent, part);
  }

  // ---------------------------------------------------------------------------------------
  // From end to end
  // ---------------------------------------------------------------------------------------

  /** All a stream sends: the opening, with the protocol version, then its items. */
  function Session(id: Uri, version: seq<Byte>, items: seq<Item>): seq<Message> {
    [Message(PIXELSTREAM_OPEN, id, version)] + Sent(id, items)
  }

  predicate IsOpening(m: Message) {
    m.kind == PIXELSTREAM_OPEN || m.kind == OBSERVER_OPEN
  }

  lemma {:induction false} ArrivedHandled(p: Protocol, ms: seq<Message>)
    requires forall m :: m in ms ==> !IsOpening(m)
    ensures HandleAll(p, AllArrived(ms)) == HandleAll(p, ms)
  {
    if ms != [] {
      var before := ms[..|ms| - 1];
      ArrivedHandled(p, before);
      assert ms[|ms| - 1] in ms;
      assert AllArrived(ms)[..|ms| - 1] == AllArrived(before);
      assert AllArrived(ms) == AllArrived(before) + [Arrived(ms[|ms| - 1])];
    }
  }

  lemma {:induction false} NoOpening(id: Uri, items: seq<Item>)
    ensures forall m :: m in Sent(id, items) ==> !IsOpening(m)
  {
    if items != [] {
      NoOpening(id, items[..|items| - 1]);
      EncodedOpensNothing(id, ContextOf(items[..|items| - 1]), items[|items| - 1]);
    }
  }

  lemma EncodedOpensNothing(id: Uri, c: Context, item: Item)
    ensures forall m :: m in Encoded(id, c, item) ==> !IsOpening(m)
  {
  }

  function Opening(id: Uri): Protocol {
    Emit(NEW_PROTOCOL.(streamId := Cut(id)), AddStreamSource(Cut(id)))
  }

  /**
   * From the client's send calls to the server's signals: after the opening and n further messages
   * the server has reported the new source and then a prefix of the items, exactly as they were sent,
   * under the identifier cut to 63 bytes. ServerWorker.Run shows that the messages handled are such a
   * prefix of the session for every way the bytes are split up.
   */
  lemma EndToEnd(id: Uri, version: seq<Byte>, items: seq<Item>, n: nat)
    requires id != [] && OneEyed(items) && n <= |Sent(id, items)|
    ensures Conveyed(id, items, n) <= |items|
    ensures HandleAll(NEW_PROTOCOL, AllArrived(Session(id, version, items))[..n + 1]).signals ==
            [AddStreamSource(Cut(id))] + Outcomes(Cut(id), items[..Conveyed(id, items, n)])
  {
    var open, sent := Message(PIXELSTREAM_OPEN, id, version), Sent(id, items);
    OpeningHandled(id, version);
    PrefixReported(Opening(id), id, items, n);
    NoOpening(id, items);
    SessionHandled(open, sent, n, Opening(id));
  }

  lemma OpeningHandled(id: Uri, version: seq<Byte>)
    requires id != []
    ensures Handle(NEW_PROTOCOL, Arrived(Message(PIXELSTREAM_OPEN, id, version))) == Opening(id)
    ensures InStep(Opening(id), NEW_CONTEXT) && Opening(id).signals == [AddStreamSource(Cut(id))]
    ensures Opening(id).streamId == Cut(id)
  {
  }

  lemma SessionHandled(open: Message, sent: seq<Message>, n: nat, p0: Protocol)
    requires n <= |sent| && Handle(NEW_PROTOCOL, Arrived(open)) == p0
    requires forall m :: m in sent ==> !IsOpening(m)
    ensures HandleAll(NEW_PROTOCOL, AllArrived([open] + sent)[..n + 1]) == HandleAll(p0, sent[..n])
  {
    HandleOne(NEW_PROTOCOL, [], Arrived(open));
    assert [] + [Arrived(open)] == [Arrived(open)];
    assert AllArrived([open] + sent)[..n + 1] == [Arrived(open)] + AllArrived(sent[..n]);
    HandleMore(NEW_PROTOCOL, [Arrived(open)], AllArrived(sent[..n]));
    ArrivedHandled(p0, sent[..n]);
  }
}
