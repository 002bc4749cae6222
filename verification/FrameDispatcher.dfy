/**
 * Streams, their sources and observers, and the flow control of frames
 * (deflect/server/FrameDispatcher.cpp).
 *
 * Class FrameDispatcher is the program, on the receive buffers of class ReceiveBuffers.ReceiveBuffer, with
 * the emitted signals collected in a list; State is its value, with a function per slot.
 */
module FrameDispatchers {
  import opened Common
  import opened Types
  import opened Ascending
  import F = Frames
  import R = ReceiveBuffers

  type Uri = string

  datatype Stream = Stream(buffer: R.Buffer, observers: nat)

  const NEW_STREAM: Stream := Stream(R.NEW_BUFFER, 0)

  /** Sent also tells the number of the frame among those the sources finished since they joined. */
  datatype Signal =
    | Opened(uri: Uri)
    | Closed(uri: Uri)
    | Rejected(uri: Uri, source: nat)
    | Warning(uri: Uri)
    | Error(uri: Uri)
    | Sent(uri: Uri, tiles: R.Tiles, number: nat)

  datatype State = State(streams: map<Uri, Stream>, signals: seq<Signal>)

  datatype Op =
    | AddSource(uri: Uri, source: nat)
    | RemoveSource(uri: Uri, source: nat)
    | AddObserver(uri: Uri)
    | RemoveObserver(uri: Uri)
    | ProcessTile(uri: Uri, source: nat, tile: Tile)
    | FrameFinished(uri: Uri, source: nat)
    | RequestFrame(uri: Uri)
    | DeleteStream(uri: Uri)

  // ---------------------------------------------------------------------------------------
  // Values
  // ---------------------------------------------------------------------------------------

  /** consumeLatestFrame's loop: all complete frames are popped, the last one is kept. */
  function Drained(b: R.Buffer, tiles: R.Tiles): (R.Tiles, R.Buffer)
    requires R.Safe(b)
    decreases WORD32 - b.last
  {
    if R.HasComplete(b) then
      R.SafePop(b);
      Drained(R.Pop(b), R.FrontFrame(b))
    else (tiles, b)
  }

  function Oriented(tiles: R.Tiles): R.Tiles {
    if F.OrderOf(tiles) == F.Order(BottomUp) then F.Mirrored(tiles) else tiles
  }

  function SetStream(s: State, uri: Uri, st: Stream): State {
    s.(streams := s.streams[uri := st])
  }

  function Emit(s: State, signal: Signal): State {
    s.(signals := s.signals + [signal])
  }

  /** Send the newest complete frame; a frame without tiles or with mixed row orders is an error, but gone. */
  ghost function Consume(s: State, uri: Uri): State
    requires uri in s.streams && R.Safe(s.streams[uri].buffer)
  {
    var st := s.streams[uri];
    var (tiles, b) := Drained(st.buffer, []);
    if !F.OrderOf(tiles).Order? then Emit(SetStream(s, uri, st.(buffer := b)), Error(uri))
    else Emit(SetStream(s, uri, st.(buffer := b.(allowed := false))),
              Sent(uri, Oriented(tiles), if b.last > 0 then b.last - 1 else 0))
  }

  predicate NobodyLeft(st: Stream) {
    st.buffer.sources == map[] && st.observers == 0
  }

  function Deleted(s: State, uri: Uri): State {
    Emit(s.(streams := s.streams - {uri}), Closed(uri))
  }

  function StreamOf(s: State, uri: Uri): Stream {
    if uri in s.streams then s.streams[uri] else NEW_STREAM
  }

  /** A source or an observer has left stream uri with st. */
  function Left(s: State, uri: Uri, st: Stream): State {
    if NobodyLeft(st) then Deleted(s, uri) else SetStream(s, uri, st)
  }

  /** An observer joins stream uri. */
  function Observed(s: State, uri: Uri): State {
    var st := StreamOf(s, uri);
    var s' := SetStream(s, uri, st.(observers := st.observers + 1));
    if st.observers == 0 && st.buffer.sources == map[] then Emit(s', Opened(uri)) else s'
  }

  ghost function Apply(s: State, op: Op): State
    requires Valid(s)
  {
    var uri, st := op.uri, StreamOf(s, op.uri);
    match op
    case AddSource(_, i) =>
      (match R.Add(st.buffer, i)
       case None => Emit(Emit(SetStream(s, uri, st), Rejected(uri, i)), Warning(uri))
       case Some(b) =>
         var s' := SetStream(s, uri, st.(buffer := b));
         if st.observers == 0 && |b.sources| == 1 then Emit(s', Opened(uri)) else s')
    case RemoveSource(_, i) =>
      if uri !in s.streams then s else Left(s, uri, st.(buffer := R.Remove(st.buffer, i)))
    case AddObserver(_) => Observed(s, uri)
    case RemoveObserver(_) =>
      if uri !in s.streams then s
      else Left(s, uri, st.(observers := if st.observers > 0 then st.observers - 1 else 0))
    case ProcessTile(_, i, tile) =>
      if uri !in s.streams || i !in st.buffer.sources then s
      else SetStream(s, uri, st.(buffer := R.Insert(st.buffer, i, tile)))
    case FrameFinished(_, i) =>
      if uri !in s.streams || i !in st.buffer.sources then s else
      (match R.Finish(st.buffer, i)
       case None => Emit(s, Error(uri))
       case Some(b) =>
         R.SafeFinish(st.buffer, i);
         var s' := SetStream(s, uri, st.(buffer := b));
         if b.allowed && R.HasComplete(b) then Consume(s', uri) else s')
    case RequestFrame(_) =>
      if uri !in s.streams then s else
      var b := st.buffer.(allowed := true);
      SameSafe(st.buffer, b);
      var s' := SetStream(s, uri, st.(buffer := b));
      if R.HasComplete(b) then Consume(s', uri) else s'
    case DeleteStream(_) => Deleted(s, uri)
  }

  ghost predicate Valid(s: State) {
    forall u {:trigger s.streams[u]} | u in s.streams :: R.Safe(s.streams[u].buffer)
  }

  /** Tiles and finishes only come from sources that joined. */
  predicate Permitted(s: State, op: Op) {
    (op.ProcessTile? || op.FrameFinished?) && op.uri in s.streams ==> op.source in s.streams[op.uri].buffer.sources
  }

  lemma SameSafe(b: R.Buffer, b': R.Buffer)
    requires R.Safe(b) && b'.last == b.last && b'.sources == b.sources
    ensures R.Safe(b')
  {
  }

  lemma AddSafe(b: R.Buffer, i: nat)
    requires R.Safe(b) && R.Add(b, i).Some?
    ensures R.Safe(R.Add(b, i).value)
  {
    var b' := R.Add(b, i).value;
    forall k | k in b'.sources ensures R.SafeSource(b'.sources[k], b'.last) {
      if k in b.sources { assert R.SafeSource(b.sources[k], b.last); }
    }
  }

  /** The loop ends with nothing complete left and only ever moves forward. */
  lemma {:induction false} DrainedSafe(b: R.Buffer, tiles: R.Tiles)
    requires R.Safe(b)
    ensures var b' := Drained(b, tiles).1;
            && R.Safe(b') && !R.HasComplete(b') && b'.allowed == b.allowed && b'.sources.Keys == b.sources.Keys
            && b.last <= b'.last && (R.HasComplete(b) ==> b.last < b'.last)
    decreases WORD32 - b.last
  {
    if R.HasComplete(b) {
      R.SafePop(b);
      DrainedSafe(R.Pop(b), R.FrontFrame(b));
    }
  }

  lemma ApplyValid(s: State, op: Op)
    requires Valid(s)
    ensures Valid(Apply(s, op))
  {
    if op.uri in s.streams { assert R.Safe(s.streams[op.uri].buffer); }
    match op {
      case FrameFinished(_, i) => FinishValid(s, op.uri, i);
      case RequestFrame(_) => RequestValid(s, op.uri);
      case _ => RosterValid(s, op);
    }
  }

  lemma RosterValid(s: State, op: Op)
    requires Valid(s) && !op.FrameFinished? && !op.RequestFrame?
    ensures Valid(Apply(s, op))
  {
    var st := StreamOf(s, op.uri);
    if op.uri in s.streams { assert R.Safe(s.streams[op.uri].buffer); }
    match op {
      case AddSource(_, i) => if R.Add(st.buffer, i).Some? { AddSafe(st.buffer, i); }
      case RemoveSource(_, i) => R.SafeRemove(st.buffer, i);
      case ProcessTile(_, i, tile) => if i in st.buffer.sources { R.SafeInsert(st.buffer, i, tile); }
      case _ =>
    }
  }

  lemma FinishValid(s: State, uri: Uri, i: nat)
    requires Valid(s)
    ensures Valid(Apply(s, FrameFinished(uri, i)))
  {
    if uri in s.streams && i in s.streams[uri].buffer.sources && R.Finish(s.streams[uri].buffer, i).Some? {
      R.SafeFinish(s.streams[uri].buffer, i);
      ConsumedSafe(R.Finish(s.streams[uri].buffer, i).value);
    }
  }

  lemma RequestValid(s: State, uri: Uri)
    requires Valid(s)
    ensures Valid(Apply(s, RequestFrame(uri)))
  {
    if uri in s.streams {
      SameSafe(s.streams[uri].buffer, s.streams[uri].buffer.(allowed := true));
      ConsumedSafe(s.streams[uri].buffer.(allowed := true));
    }
  }

  lemma ConsumedSafe(b: R.Buffer)
    requires R.Safe(b)
    ensures R.Safe(Drained(b, []).1) && R.Safe(Drained(b, []).1.(allowed := false))
  {
    DrainedSafe(b, []);
    SameSafe(Drained(b, []).1, Drained(b, []).1.(allowed := false));
  }

  // ---------------------------------------------------------------------------------------
  // The program
  // ---------------------------------------------------------------------------------------

  /** What the newest frame of a buffer makes the dispatcher say; r: what consuming it leaves in hand and in the buffer. */
  function Served(uri: Uri, r: (R.Tiles, R.Buffer)): Signal {
    if F.OrderOf(r.0).Order? then Sent(uri, Oriented(r.0), if r.1.last > 0 then r.1.last - 1 else 0) else Error(uri)
  }

  /** The lowest edge of the channel's tiles. */
  ghost predicate IsHeight(tiles: R.Tiles, channel: Byte, h: int) {
    && (forall k {:trigger tiles[k]} :: 0 <= k < |tiles| && tiles[k].channel == channel ==> tiles[k].y + tiles[k].height <= h)
    && (exists k :: 0 <= k < |tiles| && tiles[k].channel == channel && tiles[k].y + tiles[k].height == h)
  }

  /** t' is tile t of a frame the right way up; where a sum of coordinates wraps, y may be anything. */
  ghost predicate ShownTile(tiles: R.Tiles, t: Tile, t': Tile) {
    && t' == t.(y := t'.y)
    && (t.rowOrder == TopDown ==> t'.y == t.y)
    && (t.rowOrder == BottomUp && F.SmallTiles(tiles) ==>
          exists h :: IsHeight(tiles, t.channel, h) && t'.y == h - t.y - t.height)
  }

  /**
   * What the receiver is told about a frame with these tiles and this number: an error if there are none or
   * two of them differ in their row order, and otherwise the tiles, as they are if they are top-down, and
   * each flipped within the height of its channel if they are bottom-up.
   */
  ghost predicate ShownAs(tiles: R.Tiles, uri: Uri, number: nat, g: Signal) {
    if tiles == [] || exists i, j :: 0 <= i < j < |tiles| && tiles[i].rowOrder != tiles[j].rowOrder then g == Error(uri)
    else
      && g.Sent? && g.uri == uri && g.number == number && |g.tiles| == |tiles|
      && forall i {:trigger tiles[i]} {:trigger g.tiles[i]} :: 0 <= i < |tiles| ==> ShownTile(tiles, tiles[i], g.tiles[i])
  }

  lemma ServedIsShown(uri: Uri, r: (R.Tiles, R.Buffer))
    ensures ShownAs(r.0, uri, if r.1.last > 0 then r.1.last - 1 else 0, Served(uri, r))
  {
    var tiles := r.0;
    if F.SameOrder(tiles) {
      forall i | 0 <= i < |tiles| ensures ShownTile(tiles, tiles[i], Oriented(tiles)[i]) {
        assert tiles[i].rowOrder == tiles[0].rowOrder;
        if tiles[0].rowOrder == BottomUp { FlippedIsShown(tiles, i); }
      }
    }
  }

  lemma FlippedIsShown(tiles: R.Tiles, i: nat)
    requires i < |tiles| && tiles[i].rowOrder == BottomUp
    ensures ShownTile(tiles, tiles[i], F.Mirrored(tiles)[i])
  {
    var channel, h := tiles[i].channel, F.HeightOf(tiles, tiles[i].channel);
    if F.SmallTiles(tiles) {
      F.MirrorStaysInside(tiles, i);
      F.ExtentFits(tiles, channel, F.Size(0, 0));
      forall k | 0 <= k < |tiles| && tiles[k].channel == channel
        ensures F.Bottom(tiles[k]) == tiles[k].y + tiles[k].height <= h {
      }
      assert tiles[i].y + tiles[i].height <= h;
      assert IsHeight(tiles, channel, h);
    }
  }

  lemma Consumes(s: State, uri: Uri)
    requires uri in s.streams && R.Safe(s.streams[uri].buffer)
    ensures var st, r := s.streams[uri], Drained(s.streams[uri].buffer, []);
            var signal := Served(uri, r);
            Consume(s, uri) ==
            Emit(SetStream(s, uri, Stream(if signal.Sent? then r.1.(allowed := false) else r.1, st.observers)), signal)
  {
  }

  function WithBuffer(s: State, uri: Uri, b: R.Buffer): State
    requires uri in s.streams
  {
    SetStream(s, uri, s.streams[uri].(buffer := b))
  }

  lemma SameStream(s: State, uri: Uri)
    requires uri in s.streams
    ensures SetStream(s, uri, s.streams[uri]) == s && WithBuffer(s, uri, s.streams[uri].buffer) == s
  {
    assert s.streams[uri].(buffer := s.streams[uri].buffer) == s.streams[uri];
    assert s.streams[uri := s.streams[uri]] == s.streams;
  }

  /** One more observer of a stream that is there. */
  function ObserverCounted(s: State, uri: Uri): State
    requires uri in s.streams
  {
    var st := s.streams[uri];
    var s' := SetStream(s, uri, st.(observers := st.observers + 1));
    if st.observers == 0 && st.buffer.sources == map[] then Emit(s', Opened(uri)) else s'
  }

  /** The first source of a stream without observers opens it. */
  function SourceAnnounced(s: State, uri: Uri): State
    requires uri in s.streams
  {
    if s.streams[uri].observers == 0 && |s.streams[uri].buffer.sources| == 1 then Emit(s, Opened(uri)) else s
  }

  lemma ObservedInSteps(s: State, uri: Uri)
    ensures Observed(s, uri) == ObserverCounted(SetStream(s, uri, StreamOf(s, uri)), uri)
  {
    var st := StreamOf(s, uri);
    assert s.streams[uri := st][uri := st.(observers := st.observers + 1)] == s.streams[uri := st.(observers := st.observers + 1)];
  }

  lemma JoinedInSteps(s: State, uri: Uri, i: nat)
    requires Valid(s)
    ensures var found, st := SetStream(s, uri, StreamOf(s, uri)), StreamOf(s, uri);
            Apply(s, AddSource(uri, i)) ==
            match R.Add(st.buffer, i)
            case None => Emit(Emit(found, Rejected(uri, i)), Warning(uri))
            case Some(b) => SourceAnnounced(SetStream(found, uri, st.(buffer := b)), uri)
  {
    var st := StreamOf(s, uri);
    if R.Add(st.buffer, i).Some? {
      var b := R.Add(st.buffer, i).value;
      assert s.streams[uri := st][uri := st.(buffer := b)] == s.streams[uri := st.(buffer := b)];
    }
  }

  lemma NoSources(b: R.Buffer)
    ensures |b.sources| == 0 <==> b.sources == map[]
  {
    assert b.sources == map[] <==> b.sources.Keys == {};
  }

  lemma FinishApplied(s: State, uri: Uri, i: nat)
    requires Valid(s) && uri in s.streams && i in s.streams[uri].buffer.sources
    ensures var st := s.streams[uri];
            match R.Finish(st.buffer, i)
            case None => Apply(s, FrameFinished(uri, i)) == Emit(s, Error(uri))
            case Some(b) =>
              && R.Safe(b)
              && Apply(s, FrameFinished(uri, i)) ==
                 if b.allowed && R.HasComplete(b) then Consume(SetStream(s, uri, st.(buffer := b)), uri)
                 else SetStream(s, uri, st.(buffer := b))
  {
    if R.Finish(s.streams[uri].buffer, i).Some? { R.SafeFinish(s.streams[uri].buffer, i); }
  }

  lemma RequestApplied(s: State, uri: Uri)
    requires Valid(s) && uri in s.streams
    ensures var b := s.streams[uri].buffer.(allowed := true); var s' := SetStream(s, uri, s.streams[uri].(buffer := b));
            && R.Safe(b) && Apply(s, RequestFrame(uri)) == if R.HasComplete(b) then Consume(s', uri) else s'
  {
    SameSafe(s.streams[uri].buffer, s.streams[uri].buffer.(allowed := true));
  }

  /** What the dispatcher keeps of a stream. */
  datatype Entry = Entry(buffer: R.ReceiveBuffer, observers: nat)

  /**
   * view is the value of the state; every method says what becomes of it. repr are the objects that the
   * streams consist of.
   */
  class FrameDispatcher {
    var streams: map<Uri, Entry>
    var signals: seq<Signal>
    ghost var view: State
    ghost var repr: set<object>

    /** Stream u is sound, and view tells its value. */
    ghost predicate Tells(u: Uri)
      reads this, repr
      requires u in streams
    {
      && streams[u].buffer in repr && streams[u].buffer.Repr() <= repr && streams[u].buffer.Valid()
      && u in view.streams && view.streams[u] == Stream(streams[u].buffer.View(), streams[u].observers)
    }

    ghost predicate Apart(u: Uri, v: Uri)
      reads this, repr
      requires u in streams && v in streams
    {
      && streams[u].buffer in repr && streams[v].buffer in repr
      && streams[u].buffer.Repr() !! streams[v].buffer.Repr()
    }

    /** view tells the value of the state; streams share nothing. */
    ghost predicate Sound()
      reads this, repr
    {
      && this !in repr
      && view.streams.Keys == streams.Keys && view.signals == signals
      && (forall u {:trigger Tells(u)} | u in streams :: Tells(u))
      && (forall u, v {:trigger Apart(u, v)} | u in streams && v in streams && u != v :: Apart(u, v))
    }

    lemma ViewValid()
      requires Sound()
      ensures Valid(view)
    {
      forall u | u in view.streams ensures R.Safe(view.streams[u].buffer) { assert Tells(u); }
    }

    constructor ()
      ensures Sound() && view == State(map[], []) && repr == {}
    {
      streams := map[];
      signals := [];
      view := State(map[], []);
      repr := {};
    }

    /** Sound, but for the value of stream uri, which view does not tell yet. */
    ghost predicate SoundBut(uri: Uri)
      reads this, repr
    {
      && this !in repr && uri in streams
      && view.streams.Keys == streams.Keys && view.signals == signals
      && streams[uri].buffer in repr && streams[uri].buffer.Repr() <= repr && streams[uri].buffer.Valid()
      && view.streams[uri].observers == streams[uri].observers
      && (forall u {:trigger Tells(u)} | u in streams && u != uri :: Tells(u))
      && (forall u, v {:trigger Apart(u, v)} | u in streams && v in streams && u != v :: Apart(u, v))
    }

    /** After a change within the objects of one stream, which takes in new objects only. */
    twostate lemma OthersKept(uri: Uri)
      requires old(Sound()) && uri in streams && unchanged(this`streams, this`signals, this`view)
      requires unchanged(old(repr) - old(streams[uri].buffer.Repr()))
      requires old(repr) <= repr && this !in repr
      requires streams[uri].buffer.Repr() <= repr && streams[uri].buffer.Valid()
      requires fresh(streams[uri].buffer.Repr() - old(streams[uri].buffer.Repr()))
      ensures SoundBut(uri)
    {
      assert old(Tells(uri));
      forall v | v in streams && v != uri ensures Tells(v) && streams[v].buffer.Repr() == old(streams[v].buffer.Repr()) {
        assert old(Apart(uri, v)) && old(Tells(v));
        assert old(streams[v].buffer.Repr()) <= old(repr) - old(streams[uri].buffer.Repr());
      }
      forall u, v | u in streams && v in streams && u != v ensures Apart(u, v) {
        assert old(Apart(u, v)) && old(Tells(u)) && old(Tells(v));
        assert (u != uri ==> Tells(u)) && (v != uri ==> Tells(v));
      }
    }

    /** view follows. */
    ghost method Tell(uri: Uri)
      requires SoundBut(uri)
      modifies this`view
      ensures Sound() && view == WithBuffer(old(view), uri, streams[uri].buffer.View())
    {
      view := WithBuffer(view, uri, streams[uri].buffer.View());
      forall u | u in streams ensures Tells(u) { if u != uri { assert old(Tells(u)); } }
      forall u, v | u in streams && v in streams && u != v ensures Apart(u, v) { assert old(Apart(u, v)); }
    }

    /** consumeLatestFrame's loop. */
    static method Drain(buffer: R.ReceiveBuffer) returns (tiles: R.Tiles)
      requires buffer.Valid()
      modifies buffer, buffer.sourceBuffers.Values
      ensures buffer.Valid() && buffer.sourceBuffers == old(buffer.sourceBuffers)
      ensures (tiles, buffer.View()) == Drained(old(buffer.View()), [])
    {
      tiles := [];
      ghost var b := buffer.View();
      ghost var all := Drained(b, tiles);
      var more := buffer.HasCompleteFrame();
      while more
        invariant buffer.Valid() && buffer.sourceBuffers == old(buffer.sourceBuffers) && buffer.View() == b
        invariant R.Safe(b) && more == R.HasComplete(b) && Drained(b, tiles) == all
        decreases WORD32 - b.last
      {
        OneTurn(b, tiles);
        tiles, more := PopOne(buffer);
        b := R.Pop(b);
      }
      NothingMore(b, tiles);
    }

    static method PopOne(buffer: R.ReceiveBuffer) returns (tiles: R.Tiles, more: bool)
      requires buffer.Valid() && R.HasComplete(buffer.View())
      modifies buffer, buffer.sourceBuffers.Values
      ensures buffer.Valid() && buffer.sourceBuffers == old(buffer.sourceBuffers)
      ensures buffer.View() == R.Pop(old(buffer.View())) && tiles == R.FrontFrame(old(buffer.View()))
      ensures more == R.HasComplete(buffer.View())
    {
      tiles := buffer.PopFrame();
      more := buffer.HasCompleteFrame();
    }

    /** The frame, the right way up, or an error. */
    static method Present(uri: Uri, tiles: R.Tiles, number: nat) returns (signal: Signal)
      ensures signal == if F.OrderOf(tiles).Order? then Sent(uri, Oriented(tiles), number) else Error(uri)
    {
      var frame := new F.Frame(uri);
      frame.tiles := tiles;
      var order := frame.DetermineRowOrder();
      if !order.Order? {
        return Error(uri);
      }
      if order.rowOrder == BottomUp {
        frame.MirrorTilesPositionsVertically();
      }
      signal := Sent(uri, frame.tiles, number);
    }

    /** The newest frame; if it can be shown, the permission is used up. */
    static method TakeLatest(uri: Uri, buffer: R.ReceiveBuffer) returns (signal: Signal)
      requires buffer.Valid()
      modifies buffer, buffer.sourceBuffers.Values
      ensures buffer.Valid() && buffer.sourceBuffers == old(buffer.sourceBuffers)
      ensures var r := Drained(old(buffer.View()), []);
              signal == Served(uri, r) && buffer.View() == (if signal.Sent? then r.1.(allowed := false) else r.1)
    {
      var tiles := Drain(buffer);
      signal := Send(uri, buffer, tiles);
    }

    /** tiles: the frame that was popped last. */
    static method Send(uri: Uri, buffer: R.ReceiveBuffer, tiles: R.Tiles) returns (signal: Signal)
      requires buffer.Valid()
      modifies buffer
      ensures buffer.Valid() && buffer.sourceBuffers == old(buffer.sourceBuffers)
      ensures signal == Served(uri, (tiles, old(buffer.View())))
      ensures buffer.View() == if signal.Sent? then old(buffer.View()).(allowed := false) else old(buffer.View())
    {
      signal := Present(uri, tiles, if buffer.lastFrameComplete > 0 then buffer.lastFrameComplete - 1 else 0);
      if signal.Sent? {
        buffer.SetAllowedToSend(false);
      }
    }

    /** emit */
    method Notify(signal: Signal)
      requires Sound()
      modifies this`signals, this`view
      ensures Sound() && view == Emit(old(view), signal)
    {
      signals := signals + [signal];
      view := Emit(view, signal);
      forall u | u in streams ensures Tells(u) { assert old(Tells(u)); }
      forall u, v | u in streams && v in streams && u != v ensures Apart(u, v) { assert old(Apart(u, v)); }
    }

    method TakeFromBuffer(uri: Uri) returns (signal: Signal)
      requires Sound() && uri in streams
      modifies repr
      ensures unchanged(this) && SoundBut(uri) && R.Safe(view.streams[uri].buffer)
      ensures var r := Drained(view.streams[uri].buffer, []);
              && signal == Served(uri, r)
              && streams[uri].buffer.View() == if signal.Sent? then r.1.(allowed := false) else r.1
    {
      assert Tells(uri);
      signal := TakeLatest(uri, streams[uri].buffer);
      OthersKept(uri);
    }

    method ConsumeLatestFrame(uri: Uri)
      requires Sound() && uri in streams && R.Safe(view.streams[uri].buffer)
      modifies this`signals, this`view, repr
      ensures Sound() && view == Consume(old(view), uri)
      ensures |signals| == |old(signals)| + 1 && signals[..|old(signals)|] == old(signals)
      ensures var r := Drained(old(view).streams[uri].buffer, []);
              ShownAs(r.0, uri, if r.1.last > 0 then r.1.last - 1 else 0, signals[|old(signals)|])
    {
      Consumes(view, uri);
      ServedIsShown(uri, Drained(view.streams[uri].buffer, []));
      var signal := TakeFromBuffer(uri);
      Tell(uri);
      Notify(signal);
    }

    method InsertIntoBuffer(uri: Uri, source: nat, tile: Tile)
      requires Sound() && uri in streams && source in view.streams[uri].buffer.sources
      modifies repr
      ensures unchanged(this) && SoundBut(uri)
      ensures streams[uri].buffer.View() == R.Insert(view.streams[uri].buffer, source, tile)
    {
      assert Tells(uri);
      var buffer := streams[uri].buffer;
      assert source in buffer.View().sources && buffer.sourceBuffers[source] in buffer.Repr();
      buffer.InsertTile(tile, source);
      OthersKept(uri);
    }

    method ProcessTile(uri: Uri, source: nat, tile: Tile)
      requires Sound() && Permitted(view, Op.ProcessTile(uri, source, tile))
      modifies this`view, repr
      ensures Sound() && Valid(old(view)) && view == Apply(old(view), Op.ProcessTile(uri, source, tile))
    {
      ViewValid();
      if uri in streams {
        InsertIntoBuffer(uri, source, tile);
        Tell(uri);
      }
    }

    /** ok is false where the buffer throws. */
    method FinishInBuffer(uri: Uri, source: nat) returns (ok: bool)
      requires Sound() && uri in streams && source in view.streams[uri].buffer.sources
      modifies repr
      ensures unchanged(this) && SoundBut(uri)
      ensures var b := view.streams[uri].buffer;
              ok == R.Finish(b, source).Some?
              && streams[uri].buffer.View() == if ok then R.Finish(b, source).value else b
    {
      assert Tells(uri);
      var buffer := streams[uri].buffer;
      assert source in buffer.View().sources && buffer.sourceBuffers[source] in buffer.Repr();
      ok := buffer.FinishFrameForSource(source);
      OthersKept(uri);
    }

    method ServeIfWaiting(uri: Uri)
      requires Sound() && uri in streams && R.Safe(view.streams[uri].buffer)
      modifies this`signals, this`view, repr
      ensures Sound()
      ensures var b := old(view).streams[uri].buffer;
              view == if b.allowed && R.HasComplete(b) then Consume(old(view), uri) else old(view)
    {
      assert Tells(uri);
      var complete := streams[uri].buffer.HasCompleteFrame();
      if streams[uri].buffer.allowedToSend && complete {
        ConsumeLatestFrame(uri);
      }
    }

    method ProcessFrameFinished(uri: Uri, source: nat)
      requires Sound() && Permitted(view, FrameFinished(uri, source))
      modifies this`signals, this`view, repr
      ensures Sound() && Valid(old(view)) && view == Apply(old(view), FrameFinished(uri, source))
    {
      ViewValid();
      if uri !in streams { return; }
      FinishApplied(view, uri, source);
      SameStream(view, uri);
      var ok := FinishInBuffer(uri, source);
      Tell(uri);
      if !ok {
        Notify(Error(uri));
        return;
      }
      ServeIfWaiting(uri);
    }

    method AllowBuffer(uri: Uri)
      requires Sound() && uri in streams
      modifies repr
      ensures unchanged(this) && SoundBut(uri)
      ensures streams[uri].buffer.View() == view.streams[uri].buffer.(allowed := true)
    {
      assert Tells(uri);
      streams[uri].buffer.SetAllowedToSend(true);
      OthersKept(uri);
    }

    method RequestFrame(uri: Uri)
      requires Sound()
      modifies this`signals, this`view, repr
      ensures Sound() && Valid(old(view)) && view == Apply(old(view), Op.RequestFrame(uri))
    {
      ViewValid();
      if uri !in streams { return; }
      RequestApplied(view, uri);
      AllowBuffer(uri);
      Tell(uri);
      ServeIfWaiting(uri);
    }

    method DeleteStream(uri: Uri)
      requires Sound()
      modifies this
      ensures Sound() && Valid(old(view)) && view == Apply(old(view), Op.DeleteStream(uri)) && repr == old(repr)
    {
      ViewValid();
      streams := streams - {uri};
      signals := signals + [Closed(uri)];
      view := Deleted(view, uri);
      forall u | u in streams ensures Tells(u) { assert old(Tells(u)); }
      forall u, v | u in streams && v in streams && u != v ensures Apart(u, v) { assert old(Apart(u, v)); }
    }

    method SourcesOf(uri: Uri) returns (n: nat)
      requires Sound() && uri in streams
      ensures n == |view.streams[uri].buffer.sources| && streams[uri].observers == view.streams[uri].observers
    {
      assert Tells(uri);
      n := streams[uri].buffer.GetSourceCount();
    }

    /** allConnectionsClosed, and deleteStream */
    method CloseIfEmpty(uri: Uri)
      requires Sound() && uri in streams
      modifies this
      ensures Sound() && repr == old(repr)
      ensures view == if NobodyLeft(old(view).streams[uri]) then Deleted(old(view), uri) else old(view)
    {
      var sources := SourcesOf(uri);
      NoSources(view.streams[uri].buffer);
      if sources == 0 && streams[uri].observers == 0 {
        DeleteStream(uri);
      }
    }

    /** streams[uri]: a stream that is not there yet is created. */
    method Find(uri: Uri)
      requires Sound()
      modifies this`streams, this`view, this`repr
      ensures Sound() && uri in streams && view == SetStream(old(view), uri, StreamOf(old(view), uri))
      ensures old(repr) <= repr && fresh(repr - old(repr))
    {
      if uri !in streams {
        var buffer := new R.ReceiveBuffer();
        streams := streams[uri := Entry(buffer, 0)];
        repr := repr + {buffer};
        view := SetStream(view, uri, NEW_STREAM);
        assert buffer.Repr() == {buffer};
        forall u | u in streams ensures Tells(u) { if u != uri { assert old(Tells(u)); } }
        forall u, v | u in streams && v in streams && u != v ensures Apart(u, v) {
          if u != uri && v != uri { assert old(Apart(u, v)); } else { assert Tells(u) && Tells(v); }
        }
      } else {
        SameStream(view, uri);
      }
    }

    method SetObservers(uri: Uri, n: nat)
      requires Sound() && uri in streams
      modifies this`streams, this`view
      ensures Sound() && view == SetStream(old(view), uri, old(view).streams[uri].(observers := n))
      ensures streams == old(streams)[uri := old(streams)[uri].(observers := n)]
    {
      streams := streams[uri := streams[uri].(observers := n)];
      view := SetStream(view, uri, view.streams[uri].(observers := n));
      forall u | u in streams ensures Tells(u) { assert old(Tells(u)); }
      forall u, v | u in streams && v in streams && u != v ensures Apart(u, v) { assert old(Apart(u, v)); }
    }

    method CountObserver(uri: Uri)
      requires Sound() && uri in streams
      modifies this`streams, this`signals, this`view
      ensures Sound() && view == ObserverCounted(old(view), uri)
    {
      NoSources(view.streams[uri].buffer);
      assert Tells(uri);
      SetObservers(uri, streams[uri].observers + 1);
      var sources := SourcesOf(uri);
      if streams[uri].observers == 1 && sources == 0 {
        Notify(Opened(uri));
      }
    }

    method AddObserver(uri: Uri)
      requires Sound()
      modifies this
      ensures Sound() && Valid(old(view)) && view == Apply(old(view), Op.AddObserver(uri)) && fresh(repr - old(repr))
    {
      ViewValid();
      ObservedInSteps(view, uri);
      Find(uri);
      CountObserver(uri);
    }

    method RemoveObserver(uri: Uri)
      requires Sound()
      modifies this
      ensures Sound() && Valid(old(view)) && view == Apply(old(view), Op.RemoveObserver(uri)) && repr == old(repr)
    {
      ViewValid();
      if uri !in streams { return; }
      assert Tells(uri);
      SetObservers(uri, if streams[uri].observers > 0 then streams[uri].observers - 1 else 0);
      CloseIfEmpty(uri);
    }

    /** ok is false where the buffer throws. */
    method JoinBuffer(uri: Uri, source: nat) returns (ok: bool)
      requires Sound() && uri in streams
      modifies this`repr, repr
      ensures unchanged(this`streams, this`signals, this`view) && SoundBut(uri) && fresh(repr - old(repr))
      ensures var b := view.streams[uri].buffer;
              ok == R.Add(b, source).Some? && streams[uri].buffer.View() == if ok then R.Add(b, source).value else b
    {
      assert Tells(uri);
      ok := streams[uri].buffer.AddSource(source);
      repr := repr + streams[uri].buffer.Repr();
      OthersKept(uri);
    }

    method AnnounceSource(uri: Uri)
      requires Sound() && uri in streams
      modifies this`signals, this`view
      ensures Sound() && view == SourceAnnounced(old(view), uri)
    {
      var sources := SourcesOf(uri);
      if streams[uri].observers == 0 && sources == 1 {
        Notify(Opened(uri));
      }
    }

    method Reject(uri: Uri, source: nat)
      requires Sound()
      modifies this`signals, this`view
      ensures Sound() && view == Emit(Emit(old(view), Rejected(uri, source)), Warning(uri))
    {
      Notify(Rejected(uri, source));
      Notify(Warning(uri));
    }

    method AddSource(uri: Uri, source: nat)
      requires Sound()
      modifies this, repr
      ensures Sound() && Valid(old(view)) && view == Apply(old(view), Op.AddSource(uri, source)) && fresh(repr - old(repr))
    {
      ViewValid();
      JoinedInSteps(view, uri, source);
      Find(uri);
      SameStream(view, uri);
      var ok := JoinBuffer(uri, source);
      Tell(uri);
      if !ok {
        Reject(uri, source);
        return;
      }
      AnnounceSource(uri);
    }

    method LeaveBuffer(uri: Uri, source: nat)
      requires Sound() && uri in streams
      modifies repr
      ensures unchanged(this) && SoundBut(uri)
      ensures streams[uri].buffer.View() == R.Remove(view.streams[uri].buffer, source)
    {
      assert Tells(uri);
      streams[uri].buffer.RemoveSource(source);
      OthersKept(uri);
    }

    method RemoveSource(uri: Uri, source: nat)
      requires Sound()
      modifies this, repr
      ensures Sound() && Valid(old(view)) && view == Apply(old(view), Op.RemoveSource(uri, source)) && repr == old(repr)
    {
      ViewValid();
      if uri !in streams { return; }
      LeaveBuffer(uri, source);
      Tell(uri);
      CloseIfEmpty(uri);
    }
  }

  // ---------------------------------------------------------------------------------------
  // Runs
  // ---------------------------------------------------------------------------------------

  ghost function Execute(ops: seq<Op>): (s: State)
    ensures Valid(s)
  {
    if ops == [] then State(map[], [])
    else
      var s := Execute(ops[..|ops| - 1]);
      ApplyValid(s, ops[|ops| - 1]);
      Apply(s, ops[|ops| - 1])
  }

  /** How often a stream was opened, closed and sent a frame. */
  datatype Tally = Tally(openings: nat, closings: nat, sent: nat)

  function Counted(tally: Tally, g: Signal, uri: Uri): Tally {
    if g.uri != uri then tally
    else match g
      case Opened(_) => tally.(openings := tally.openings + 1)
      case Closed(_) => tally.(closings := tally.closings + 1)
      case Sent(_, _, _) => tally.(sent := tally.sent + 1)
      case _ => tally
  }

  function TallyOf(signals: seq<Signal>, uri: Uri): Tally {
    if signals == [] then Tally(0, 0, 0)
    else Counted(TallyOf(signals[..|signals| - 1], uri), signals[|signals| - 1], uri)
  }

  lemma TallyEmit(s: State, g: Signal, uri: Uri)
    ensures TallyOf(Emit(s, g).signals, uri) == Counted(TallyOf(s.signals, uri), g, uri)
  {
    assert Emit(s, g).signals[..|s.signals|] == s.signals;
  }

  // ---------------------------------------------------------------------------------------
  // Flow control
  // ---------------------------------------------------------------------------------------

  function Requests(ops: seq<Op>, uri: Uri): nat {
    if ops == [] then 0 else Requests(ops[..|ops| - 1], uri) + if ops[|ops| - 1] == RequestFrame(uri) then 1 else 0
  }

  /** The permission to send one more frame. */
  function Allowed(s: State, uri: Uri): nat {
    if uri in s.streams && s.streams[uri].buffer.allowed then 1 else 0
  }

  /** Frames sent plus the outstanding permission. */
  function Spent(s: State, uri: Uri): nat {
    TallyOf(s.signals, uri).sent + Allowed(s, uri)
  }

  /** The newest frame of b can be shown. */
  predicate Shows(b: R.Buffer)
    requires R.Safe(b)
  {
    F.OrderOf(Drained(b, []).0).Order?
  }

  lemma ConsumeTally(s: State, uri: Uri, u: Uri)
    requires uri in s.streams && R.Safe(s.streams[uri].buffer)
    ensures var before := TallyOf(s.signals, u);
            TallyOf(Consume(s, uri).signals, u) ==
            if Shows(s.streams[uri].buffer) && u == uri then before.(sent := before.sent + 1) else before
  {
    var st := s.streams[uri];
    var (tiles, b) := Drained(st.buffer, []);
    if Shows(st.buffer) {
      TallyEmit(SetStream(s, uri, st.(buffer := b.(allowed := false))),
                Sent(uri, Oriented(tiles), if b.last > 0 then b.last - 1 else 0), u);
    } else {
      TallyEmit(SetStream(s, uri, st.(buffer := b)), Error(uri), u);
    }
  }

  lemma ConsumeAllowed(s: State, uri: Uri, u: Uri)
    requires uri in s.streams && R.Safe(s.streams[uri].buffer) && s.streams[uri].buffer.allowed
    ensures Allowed(Consume(s, uri), u) == if u == uri && Shows(s.streams[uri].buffer) then 0 else Allowed(s, u)
  {
    DrainedSafe(s.streams[uri].buffer, []);
  }

  /** Sending uses the permission up; only requestFrame gives one. */
  lemma ConsumeFlow(s: State, uri: Uri, u: Uri)
    requires uri in s.streams && R.Safe(s.streams[uri].buffer) && s.streams[uri].buffer.allowed
    ensures Spent(Consume(s, uri), u) == Spent(s, u)
  {
    ConsumeTally(s, uri, u);
    ConsumeAllowed(s, uri, u);
  }

  lemma FinishFlow(s: State, uri: Uri, i: nat, u: Uri)
    requires Valid(s) && uri in s.streams && i in s.streams[uri].buffer.sources
    ensures Spent(Apply(s, FrameFinished(uri, i)), u) == Spent(s, u)
  {
    var st := s.streams[uri];
    if R.Finish(st.buffer, i).Some? {
      var b := R.Finish(st.buffer, i).value;
      R.SafeFinish(st.buffer, i);
      if b.allowed && R.HasComplete(b) { ConsumeFlow(SetStream(s, uri, st.(buffer := b)), uri, u); }
    } else {
      TallyEmit(s, Error(uri), u);
    }
  }

  lemma RequestFlow(s: State, uri: Uri, u: Uri)
    requires Valid(s)
    ensures Spent(Apply(s, RequestFrame(uri)), u) <= Spent(s, u) + if u == uri then 1 else 0
  {
    if uri in s.streams {
      var st := s.streams[uri];
      var b := st.buffer.(allowed := true);
      SameSafe(st.buffer, b);
      if R.HasComplete(b) { ConsumeFlow(SetStream(s, uri, st.(buffer := b)), uri, u); }
    }
  }

  /** The step sends u a frame. */
  ghost predicate SendsTo(s: State, op: Op, u: Uri)
    requires Valid(s)
  {
    var s' := Apply(s, op);
    exists k {:trigger s'.signals[k]} :: |s.signals| <= k < |s'.signals| && s'.signals[k].Sent? && s'.signals[k].uri == u
  }

  /** A step leaves u's receiver waiting exactly if it waited or asked just now, and neither got a frame nor lost its stream. */
  lemma PermissionStep(s: State, op: Op, u: Uri)
    requires Valid(s) && Permitted(s, op)
    ensures Allowed(Apply(s, op), u) == 1 <==>
            && u in s.streams && u in Apply(s, op).streams && (s.streams[u].buffer.allowed || op == RequestFrame(u))
            && !SendsTo(s, op, u)
  {
    match op {
      case FrameFinished(uri, i) => FinishPermission(s, uri, i, u);
      case RequestFrame(uri) => RequestPermission(s, uri, u);
      case _ => RosterPermission(s, op, u);
    }
  }

  lemma RosterPermission(s: State, op: Op, u: Uri)
    requires Valid(s) && Permitted(s, op) && !op.FrameFinished? && !op.RequestFrame?
    ensures !SendsTo(s, op, u)
    ensures Allowed(Apply(s, op), u) == 1 <==> u in s.streams && u in Apply(s, op).streams && s.streams[u].buffer.allowed
  {
    if op.AddSource? { JoinPermission(s, op.uri, op.source, u); }
  }

  lemma JoinPermission(s: State, uri: Uri, i: nat, u: Uri)
    requires Valid(s)
    ensures !SendsTo(s, AddSource(uri, i), u)
    ensures Allowed(Apply(s, AddSource(uri, i)), u) == Allowed(s, u)
  {
  }

  /** Consuming uses the permission up exactly if it sends a frame. */
  lemma ConsumePermission(s: State, uri: Uri, u: Uri)
    requires uri in s.streams && R.Safe(s.streams[uri].buffer) && s.streams[uri].buffer.allowed
    ensures var s' := Consume(s, uri);
            && s'.streams.Keys == s.streams.Keys && |s'.signals| == |s.signals| + 1
            && s'.signals[|s.signals|].uri == uri
            && Allowed(s', u) == if u == uri && s'.signals[|s.signals|].Sent? then 0 else Allowed(s, u)
  {
    ConsumeAllowed(s, uri, u);
  }

  lemma FinishPermission(s: State, uri: Uri, i: nat, u: Uri)
    requires Valid(s) && Permitted(s, FrameFinished(uri, i))
    ensures Allowed(Apply(s, FrameFinished(uri, i)), u) == 1 <==>
            && u in s.streams && u in Apply(s, FrameFinished(uri, i)).streams && s.streams[u].buffer.allowed
            && !SendsTo(s, FrameFinished(uri, i), u)
  {
    if uri in s.streams {
      FinishApplied(s, uri, i);
      if R.Finish(s.streams[uri].buffer, i).Some? {
        var b := R.Finish(s.streams[uri].buffer, i).value;
        if b.allowed && R.HasComplete(b) { ConsumePermission(SetStream(s, uri, s.streams[uri].(buffer := b)), uri, u); }
      }
    }
  }

  lemma RequestPermission(s: State, uri: Uri, u: Uri)
    requires Valid(s)
    ensures Allowed(Apply(s, RequestFrame(uri)), u) == 1 <==>
            && u in s.streams && u in Apply(s, RequestFrame(uri)).streams
            && (s.streams[u].buffer.allowed || u == uri) && !SendsTo(s, RequestFrame(uri), u)
  {
    if uri in s.streams {
      RequestApplied(s, uri);
      var b := s.streams[uri].buffer.(allowed := true);
      if R.HasComplete(b) { ConsumePermission(SetStream(s, uri, s.streams[uri].(buffer := b)), uri, u); }
    }
  }

  /** The receiver has asked since it last got a frame, and the stream has been there ever since. */
  ghost predicate Asks(ops: seq<Op>, u: Uri) {
    ops != [] &&
    var before, op := ops[..|ops| - 1], ops[|ops| - 1];
    && u in Execute(before).streams && u in Execute(ops).streams
    && (Asks(before, u) || op == RequestFrame(u)) && !SendsTo(Execute(before), op, u)
  }

  /** A permission is neither lost nor invented: it lasts until a frame is sent, or the stream goes. */
  lemma {:induction false} PermissionLasts(ops: seq<Op>, u: Uri)
    requires Legal(ops)
    ensures Allowed(Execute(ops), u) == 1 <==> Asks(ops, u)
  {
    if ops != [] {
      var before, op := ops[..|ops| - 1], ops[|ops| - 1];
      PermissionLasts(before, u);
      PermissionStep(Execute(before), op, u);
    }
  }

  // ---------------------------------------------------------------------------------------
  // Observers
  // ---------------------------------------------------------------------------------------

  /** The observers that have joined u and not left; deleting the stream sends them all away. */
  function Watching(ops: seq<Op>, u: Uri): nat {
    if ops == [] then 0 else
    var n, op := Watching(ops[..|ops| - 1], u), ops[|ops| - 1];
    if op == AddObserver(u) then n + 1
    else if op == RemoveObserver(u) && n > 0 then n - 1
    else if op == DeleteStream(u) then 0 else n
  }

  lemma {:induction false} ObserversCounted(ops: seq<Op>, u: Uri)
    requires Legal(ops)
    ensures StreamOf(Execute(ops), u).observers == Watching(ops, u)
  {
    if ops != [] {
      var before, op := ops[..|ops| - 1], ops[|ops| - 1];
      ObserversCounted(before, u);
      ObserversStep(Execute(before), op, u);
    }
  }

  lemma ObserversStep(s: State, op: Op, u: Uri)
    requires Valid(s) && Permitted(s, op)
    ensures var n := StreamOf(s, u).observers;
            StreamOf(Apply(s, op), u).observers ==
            if op == AddObserver(u) then n + 1 else if op == RemoveObserver(u) && n > 0 then n - 1
            else if op == DeleteStream(u) then 0 else n
  {
    if op.FrameFinished? { FinishKeepsObservers(s, op.uri, op.source, u); }
    else if op.RequestFrame? { RequestKeepsObservers(s, op.uri, u); }
    else { RosterObservers(s, op, u); }
  }

  lemma RosterObservers(s: State, op: Op, u: Uri)
    requires Valid(s) && Permitted(s, op) && !op.FrameFinished? && !op.RequestFrame?
    ensures var n := StreamOf(s, u).observers;
            StreamOf(Apply(s, op), u).observers ==
            if op == AddObserver(u) then n + 1 else if op == RemoveObserver(u) && n > 0 then n - 1
            else if op == DeleteStream(u) then 0 else n
  {
    if op.AddSource? || op.RemoveSource? { SourcesKeepObservers(s, op, u); }
  }

  lemma SourcesKeepObservers(s: State, op: Op, u: Uri)
    requires Valid(s) && (op.AddSource? || op.RemoveSource?)
    ensures StreamOf(Apply(s, op), u).observers == StreamOf(s, u).observers
  {
  }

  lemma FinishKeepsObservers(s: State, uri: Uri, i: nat, u: Uri)
    requires Valid(s)
    ensures StreamOf(Apply(s, FrameFinished(uri, i)), u).observers == StreamOf(s, u).observers
  {
  }

  lemma RequestKeepsObservers(s: State, uri: Uri, u: Uri)
    requires Valid(s)
    ensures StreamOf(Apply(s, RequestFrame(uri)), u).observers == StreamOf(s, u).observers
  {
  }

  lemma DeletedTally(s: State, uri: Uri, u: Uri)
    ensures TallyOf(Deleted(s, uri).signals, u) == Counted(TallyOf(s.signals, u), Closed(uri), u)
  {
    TallyEmit(s.(streams := s.streams - {uri}), Closed(uri), u);
  }

  /** Whether a source that joins is the first to open the stream. */
  predicate Opens(st: Stream, i: nat) {
    R.Add(st.buffer, i).Some? && st.observers == 0 && |R.Add(st.buffer, i).value.sources| == 1
  }

  lemma RejectedTally(s: State, uri: Uri, i: nat, u: Uri)
    ensures TallyOf(Emit(Emit(s, Rejected(uri, i)), Warning(uri)).signals, u) == TallyOf(s.signals, u)
  {
    TallyEmit(Emit(s, Rejected(uri, i)), Warning(uri), u);
    TallyEmit(s, Rejected(uri, i), u);
  }

  lemma JoinTally(s: State, uri: Uri, i: nat, u: Uri)
    requires Valid(s)
    ensures TallyOf(Apply(s, AddSource(uri, i)).signals, u) ==
            if Opens(StreamOf(s, uri), i) then Counted(TallyOf(s.signals, u), Opened(uri), u) else TallyOf(s.signals, u)
  {
    var st := StreamOf(s, uri);
    if R.Add(st.buffer, i).None? {
      RejectedTally(SetStream(s, uri, st), uri, i, u);
    } else if Opens(st, i) {
      TallyEmit(SetStream(s, uri, st.(buffer := R.Add(st.buffer, i).value)), Opened(uri), u);
    }
  }

  /** The stream a source has asked to join. */
  lemma JoinedStream(s: State, uri: Uri, i: nat)
    requires Valid(s)
    ensures var st := StreamOf(s, uri);
            Apply(s, AddSource(uri, i)).streams ==
            s.streams[uri := if R.Add(st.buffer, i).Some? then st.(buffer := R.Add(st.buffer, i).value) else st]
  {
  }

  lemma JoinFlow(s: State, uri: Uri, i: nat, u: Uri)
    requires Valid(s)
    ensures Spent(Apply(s, AddSource(uri, i)), u) == Spent(s, u)
  {
    JoinTally(s, uri, i, u);
    JoinAllowed(s, uri, i, u);
  }

  lemma JoinAllowed(s: State, uri: Uri, i: nat, u: Uri)
    requires Valid(s)
    ensures Allowed(Apply(s, AddSource(uri, i)), u) == Allowed(s, u)
  {
    JoinedStream(s, uri, i);
  }

  lemma ObserverTally(s: State, uri: Uri, u: Uri)
    ensures var st := StreamOf(s, uri);
            TallyOf(Observed(s, uri).signals, u) ==
            if st.observers == 0 && st.buffer.sources == map[] then Counted(TallyOf(s.signals, u), Opened(uri), u)
            else TallyOf(s.signals, u)
  {
    var st := StreamOf(s, uri);
    TallyEmit(SetStream(s, uri, st.(observers := st.observers + 1)), Opened(uri), u);
  }

  lemma ObserverFlow(s: State, uri: Uri, u: Uri)
    ensures Spent(Observed(s, uri), u) == Spent(s, u)
  {
    ObserverTally(s, uri, u);
    ObserverAllowed(s, uri, u);
  }

  lemma ObserverAllowed(s: State, uri: Uri, u: Uri)
    ensures Allowed(Observed(s, uri), u) == Allowed(s, u)
  {
  }

  lemma LeftFlow(s: State, uri: Uri, st: Stream, u: Uri)
    requires uri in s.streams && st.buffer.allowed == s.streams[uri].buffer.allowed
    ensures Spent(Left(s, uri, st), u) <= Spent(s, u)
  {
    LeftTally(s, uri, st, u);
    LeftAllowed(s, uri, st, u);
  }

  lemma LeftTally(s: State, uri: Uri, st: Stream, u: Uri)
    ensures TallyOf(Left(s, uri, st).signals, u) ==
            if NobodyLeft(st) then Counted(TallyOf(s.signals, u), Closed(uri), u) else TallyOf(s.signals, u)
  {
    if NobodyLeft(st) { DeletedTally(s, uri, u); }
  }

  lemma LeftAllowed(s: State, uri: Uri, st: Stream, u: Uri)
    requires uri in s.streams && st.buffer.allowed == s.streams[uri].buffer.allowed
    ensures Allowed(Left(s, uri, st), u) <= Allowed(s, u)
  {
  }

  lemma LeaveFlow(s: State, op: Op, u: Uri)
    requires Valid(s) && (op.RemoveSource? || op.RemoveObserver? || op.DeleteStream?)
    ensures Spent(Apply(s, op), u) <= Spent(s, u)
  {
    var uri, st := op.uri, StreamOf(s, op.uri);
    match op {
      case RemoveSource(_, i) => if uri in s.streams { LeftFlow(s, uri, st.(buffer := R.Remove(st.buffer, i)), u); }
      case RemoveObserver(_) =>
        if uri in s.streams { LeftFlow(s, uri, st.(observers := if st.observers > 0 then st.observers - 1 else 0), u); }
      case DeleteStream(_) => DeletedTally(s, uri, u);
    }
  }

  lemma FlowStep(s: State, op: Op, u: Uri)
    requires Valid(s) && Permitted(s, op)
    ensures Spent(Apply(s, op), u) <= Spent(s, u) + if op == RequestFrame(u) then 1 else 0
  {
    match op {
      case FrameFinished(uri, i) => if uri in s.streams { FinishFlow(s, uri, i, u); }
      case RequestFrame(uri) => RequestFlow(s, uri, u);
      case ProcessTile(_, _, _) =>
      case AddSource(uri, i) => JoinFlow(s, uri, i, u);
      case AddObserver(uri) => ObserverFlow(s, uri, u);
      case _ => LeaveFlow(s, op, u);
    }
  }

  ghost predicate Legal(ops: seq<Op>) {
    ops == [] || (Legal(ops[..|ops| - 1]) && Permitted(Execute(ops[..|ops| - 1]), ops[|ops| - 1]))
  }

  /** Frames sent plus the outstanding permission never exceed the requests. */
  lemma {:induction false} FlowControl(ops: seq<Op>, uri: Uri)
    requires Legal(ops)
    ensures Spent(Execute(ops), uri) <= Requests(ops, uri)
  {
    if ops != [] {
      FlowControl(ops[..|ops| - 1], uri);
      FlowStep(Execute(ops[..|ops| - 1]), ops[|ops| - 1], uri);
    }
  }

  /** A frame is there and may go. */
  predicate Stalled(s: State, uri: Uri) {
    uri in s.streams && s.streams[uri].buffer.allowed && R.HasComplete(s.streams[uri].buffer)
  }

  lemma ConsumeServes(s: State, uri: Uri, u: Uri)
    requires uri in s.streams && R.Safe(s.streams[uri].buffer) && (u != uri ==> !Stalled(s, u))
    ensures !Stalled(Consume(s, uri), u)
  {
    var b := Drained(s.streams[uri].buffer, []).1;
    DrainedSafe(s.streams[uri].buffer, []);
    SameComplete(b, b.(allowed := false));
  }

  lemma SameComplete(b: R.Buffer, b': R.Buffer)
    requires b'.sources == b.sources && b'.last == b.last
    ensures R.HasComplete(b') == R.HasComplete(b)
  {
    assert forall i | i in b.sources :: R.IsAhead(b', i) == R.IsAhead(b, i);
  }

  /** Source i is the only one that has not finished the next frame, and there are others. */
  ghost predicate HoldsUp(b: R.Buffer, i: nat) {
    && i in b.sources && !R.IsAhead(b, i) && (exists k :: k in b.sources && k != i)
    && forall k {:trigger R.IsAhead(b, k)} | k in b.sources && k != i :: R.IsAhead(b, k)
  }

  /** The receiver of u waits, and the only source that holds it up is about to leave. */
  ghost predicate Strands(s: State, op: Op, u: Uri) {
    op.RemoveSource? && op.uri == u && u in s.streams && s.streams[u].buffer.allowed && HoldsUp(s.streams[u].buffer, op.source)
  }

  /** The departure of a source completes a frame exactly if that source was the one that held it up. */
  lemma RemovalServes(b: R.Buffer, i: nat)
    requires !R.HasComplete(b)
    ensures R.HasComplete(R.Remove(b, i)) <==> HoldsUp(b, i)
  {
    var b' := R.Remove(b, i);
    assert forall k | k in b'.sources :: b'.last == b.last && R.IsAhead(b', k) == R.IsAhead(b, k);
    if HoldsUp(b, i) {
      var k :| k in b.sources && k != i;
      assert k in b'.sources;
    }
    if R.HasComplete(b') {
      var k :| k in b'.sources;
      assert k in b.sources && k != i && R.IsAhead(b', k);
      forall k | k in b.sources && k != i ensures R.IsAhead(b, k) { assert R.IsAhead(b', k); }
    }
  }

  /**
   * No frame is left waiting although it may go: every operation keeps that, except the removal of a
   * source that was the only one the others were waiting for.
   */
  lemma ServedStep(s: State, op: Op, u: Uri)
    requires Valid(s) && Permitted(s, op) && !Stalled(s, u)
    ensures Stalled(Apply(s, op), u) <==> Strands(s, op, u)
  {
    var uri, st := op.uri, StreamOf(s, op.uri);
    match op {
      case AddSource(_, i) => if uri == u && R.Add(st.buffer, i).Some? { AddServed(st.buffer, i); }
      case ProcessTile(_, i, tile) => if uri in s.streams { InsertComplete(st.buffer, i, tile); }
      case FrameFinished(_, i) => FinishedServed(s, uri, i, u);
      case RequestFrame(_) => RequestServed(s, uri, u);
      case RemoveSource(_, i) =>
        if uri in s.streams && !R.HasComplete(st.buffer) { RemovalServes(st.buffer, i); }
      case _ =>
    }
  }

  lemma FinishedServed(s: State, uri: Uri, i: nat, u: Uri)
    requires Valid(s) && Permitted(s, FrameFinished(uri, i)) && !Stalled(s, u)
    ensures !Stalled(Apply(s, FrameFinished(uri, i)), u)
  {
    var st := StreamOf(s, uri);
    if uri in s.streams && R.Finish(st.buffer, i).Some? {
      var b := R.Finish(st.buffer, i).value;
      R.SafeFinish(st.buffer, i);
      if b.allowed && R.HasComplete(b) { ConsumeServes(SetStream(s, uri, st.(buffer := b)), uri, u); }
    }
  }

  lemma RequestServed(s: State, uri: Uri, u: Uri)
    requires Valid(s) && !Stalled(s, u)
    ensures !Stalled(Apply(s, RequestFrame(uri)), u)
  {
    if uri in s.streams {
      var b := s.streams[uri].buffer.(allowed := true);
      SameSafe(s.streams[uri].buffer, b);
      if R.HasComplete(b) { ConsumeServes(SetStream(s, uri, s.streams[uri].(buffer := b)), uri, u); }
    }
  }

  ghost predicate AlwaysServed(ops: seq<Op>, u: Uri) {
    !Stalled(Execute(ops), u) && (ops == [] || AlwaysServed(ops[..|ops| - 1], u))
  }

  ghost predicate NobodyStrands(ops: seq<Op>, u: Uri) {
    ops == [] || (NobodyStrands(ops[..|ops| - 1], u) && !Strands(Execute(ops[..|ops| - 1]), ops[|ops| - 1], u))
  }

  /** So a receiver is served at once all along a run if and only if no source leaves that alone holds it up. */
  lemma {:induction false} ServedIff(ops: seq<Op>, u: Uri)
    requires Legal(ops)
    ensures AlwaysServed(ops, u) <==> NobodyStrands(ops, u)
  {
    if ops != [] {
      ServedIff(ops[..|ops| - 1], u);
      if NobodyStrands(ops[..|ops| - 1], u) { ServedStep(Execute(ops[..|ops| - 1]), ops[|ops| - 1], u); }
    }
  }

  lemma AddServed(b: R.Buffer, i: nat)
    requires R.Add(b, i).Some?
    ensures R.HasComplete(R.Add(b, i).value) ==> R.HasComplete(b)
  {
    var b' := R.Add(b, i).value;
    if b' != b { assert !R.IsAhead(b', i); }
  }

  lemma InsertComplete(b: R.Buffer, i: nat, tile: Tile)
    requires i in b.sources
    ensures R.HasComplete(R.Insert(b, i, tile)) == R.HasComplete(b)
  {
    var b' := R.Insert(b, i, tile);
    assert forall k | k in b.sources :: R.IsAhead(b', k) == R.IsAhead(b, k);
    assert i in b'.sources;
  }

  ghost predicate Reachable(s: State) {
    exists ops :: Legal(ops) && Execute(ops) == s
  }

  lemma Follow(s: State, op: Op)
    requires Reachable(s) && Permitted(s, op)
    ensures Valid(s) && Reachable(Apply(s, op))
  {
    var ops :| Legal(ops) && Execute(ops) == s;
    assert (ops + [op])[..|ops|] == ops;
    assert Legal(ops + [op]) && Execute(ops + [op]) == Apply(s, op);
  }

  /** A buffer whose sources 0 and 1 have joined; then its receiver waits, and its source 0 has finished a frame. */
  const JOINED: R.Buffer := R.Buffer(0, map[0 := R.NEW_SOURCE, 1 := R.NEW_SOURCE], false)
  const WAITING: R.Buffer := R.Buffer(0, map[0 := R.Source([[], []], 1), 1 := R.NEW_SOURCE], true)

  lemma BothJoin(uri: Uri) returns (s: State)
    ensures Reachable(s) && uri in s.streams && s.streams[uri] == Stream(JOINED, 0)
  {
    var s0 := Execute([]);
    assert Legal([]) && s0.streams == map[];
    Follow(s0, AddSource(uri, 0));
    var s1 := Apply(s0, AddSource(uri, 0));
    assert StreamOf(s1, uri) == Stream(R.Buffer(0, map[0 := R.NEW_SOURCE], false), 0);
    Follow(s1, AddSource(uri, 1));
    s := Apply(s1, AddSource(uri, 1));
    assert StreamOf(s, uri) == Stream(JOINED, 0);
  }

  lemma RequestWaits(s: State, uri: Uri)
    requires Valid(s) && uri in s.streams && s.streams[uri] == Stream(JOINED, 0)
    ensures var s' := Apply(s, RequestFrame(uri));
            uri in s'.streams && s'.streams[uri] == Stream(JOINED.(allowed := true), 0)
  {
    assert !R.IsAhead(JOINED.(allowed := true), 0);
  }

  /** For example: two sources, a request, a finish of source 0, and source 1 leaves. */
  lemma RemovalCanStall(uri: Uri) returns (s: State)
    ensures Reachable(s) && Stalled(s, uri)
  {
    var s2 := BothJoin(uri);
    Follow(s2, RequestFrame(uri));
    RequestWaits(s2, uri);
    var s3 := Apply(s2, RequestFrame(uri));
    Follow(s3, FrameFinished(uri, 0));
    FinishWaits(s3, uri, JOINED.(allowed := true));
    var s4 := Apply(s3, FrameFinished(uri, 0));
    Follow(s4, RemoveSource(uri, 1));
    LeaveStalls(s4, uri);
    s := Apply(s4, RemoveSource(uri, 1));
  }

  lemma FinishWaits(s: State, uri: Uri, joined: R.Buffer)
    requires Valid(s) && uri in s.streams && s.streams[uri] == Stream(joined, 0)
    requires joined == R.Buffer(0, map[0 := R.NEW_SOURCE, 1 := R.NEW_SOURCE], true)
    ensures var s' := Apply(s, FrameFinished(uri, 0)); uri in s'.streams && s'.streams[uri] == Stream(WAITING, 0)
  {
    var b := R.Finish(joined, 0).value;
    assert R.NEW_SOURCE.queue + [[]] == [[], []];
    assert b.sources == WAITING.sources;
    assert !R.IsAhead(b, 1);
  }

  lemma LeaveStalls(s: State, uri: Uri)
    requires Valid(s) && uri in s.streams && s.streams[uri] == Stream(WAITING, 0)
    ensures Stalled(Apply(s, RemoveSource(uri, 1)), uri)
  {
    var b := R.Remove(WAITING, 1);
    assert b.sources == map[0 := R.Source([[], []], 1)];
    assert 0 in b.sources && R.IsAhead(b, 0);
  }

  lemma RequestServes(s: State, uri: Uri)
    requires Valid(s)
    ensures !Stalled(Apply(s, RequestFrame(uri)), uri)
  {
    if uri in s.streams {
      var b := s.streams[uri].buffer.(allowed := true);
      SameSafe(s.streams[uri].buffer, b);
      if R.HasComplete(b) { ConsumeServes(SetStream(s, uri, s.streams[uri].(buffer := b)), uri, uri); }
    }
  }

  /** A finish that is not refused for the size of the queue serves a waiting receiver as well. */
  lemma FinishServes(s: State, uri: Uri, i: nat)
    requires Valid(s) && uri in s.streams && i in s.streams[uri].buffer.sources
    requires R.Finish(s.streams[uri].buffer, i).Some?
    ensures !Stalled(Apply(s, FrameFinished(uri, i)), uri)
  {
    var st := s.streams[uri];
    var b := R.Finish(st.buffer, i).value;
    R.SafeFinish(st.buffer, i);
    if b.allowed && R.HasComplete(b) { ConsumeServes(SetStream(s, uri, st.(buffer := b)), uri, uri); }
  }

  // ---------------------------------------------------------------------------------------
  // The newest frame
  // ---------------------------------------------------------------------------------------

  /** What the sources of a stream have told since they joined; popped: the frames consumed. */
  ghost function StoryStep(s: State, h: R.History, op: Op, uri: Uri): R.History
    requires Valid(s)
  {
    ApplyValid(s, op);
    var s' := Apply(s, op);
    if uri !in s'.streams then R.History(map[], 0)
    else if op.uri != uri then h
    else
      var told := match op
        case AddSource(_, i) => R.Record(h, R.AddSource(i))
        case RemoveSource(_, i) => R.Record(h, R.RemoveSource(i))
        case ProcessTile(_, i, tile) => R.Record(h, R.InsertTile(i, tile))
        case FrameFinished(_, i) => R.Record(h, R.FinishFrame(i))
        case _ => h;
      told.(popped := s'.streams[uri].buffer.last)
  }

  ghost function Story(ops: seq<Op>, uri: Uri): R.History {
    if ops == [] then R.History(map[], 0)
    else StoryStep(Execute(ops[..|ops| - 1]), Story(ops[..|ops| - 1], uri), ops[|ops| - 1], uri)
  }

  ghost predicate Tells(s: State, h: R.History, uri: Uri) {
    if uri in s.streams then R.Refines(s.streams[uri].buffer, h) else h == R.History(map[], 0)
  }

  /** Frame n is the last one that every source has finished. */
  ghost predicate IsNewest(h: R.History, n: nat) {
    && h.frames != map[]
    && (forall i | i in h.frames :: |h.frames[i]| > n + 1)
    && (exists i :: i in h.frames && |h.frames[i]| == n + 2)
  }

  /** r: the frame in hand and what is left of the buffer. */
  ghost predicate HoldsNewest(h: R.History, r: (R.Tiles, R.Buffer)) {
    r.1.last > 0 && r.0 == R.FrameAt(h, r.1.last - 1, Sorted(h.frames.Keys))
  }

  /** The loop leaves the newest complete frame in hand, as all sources sent it. */
  lemma {:induction false} DrainedNewest(b: R.Buffer, h: R.History, tiles: R.Tiles)
    requires R.Safe(b) && R.Refines(b, h)
    ensures R.Refines(Drained(b, tiles).1, h.(popped := Drained(b, tiles).1.last))
    ensures R.HasComplete(b) ==> HoldsNewest(h, Drained(b, tiles))
    decreases WORD32 - b.last
  {
    if R.HasComplete(b) {
      var b1, h1, front := R.Pop(b), h.(popped := h.popped + 1), R.FrontFrame(b);
      OnePopped(b, h);
      OneTurn(b, tiles);
      DrainedNewest(b1, h1, front);
      NothingMore(b1, front);
      FramesOnly(h, h1, b1.last - 1, Sorted(h.frames.Keys));
      if R.HasComplete(b1) { SameFrames(h, h1, Drained(b1, front)); }
    } else {
      NothingMore(b, tiles);
      assert h.(popped := b.last) == h;
    }
  }

  lemma OneTurn(b: R.Buffer, tiles: R.Tiles)
    requires R.Safe(b) && R.HasComplete(b)
    ensures R.Safe(R.Pop(b)) && R.Pop(b).last == b.last + 1 && Drained(b, tiles) == Drained(R.Pop(b), R.FrontFrame(b))
  {
    R.SafePop(b);
  }

  lemma SameFrames(h: R.History, h': R.History, r: (R.Tiles, R.Buffer))
    requires h'.frames == h.frames && HoldsNewest(h', r)
    ensures HoldsNewest(h, r)
  {
    FramesOnly(h, h', r.1.last - 1, Sorted(h.frames.Keys));
  }

  lemma NothingMore(b: R.Buffer, tiles: R.Tiles)
    requires R.Safe(b)
    ensures !R.HasComplete(b) ==> Drained(b, tiles) == (tiles, b)
  {
  }

  lemma OnePopped(b: R.Buffer, h: R.History)
    requires R.Safe(b) && R.Refines(b, h) && R.HasComplete(b)
    ensures R.Safe(R.Pop(b)) && R.Pop(b).last == b.last + 1 && R.Refines(R.Pop(b), h.(popped := h.popped + 1))
    ensures R.FrontFrame(b) == R.FrameAt(h, h.popped, Sorted(h.frames.Keys))
  {
    R.SafePop(b);
    R.PopRefines(b, h);
    R.GatheredIsFrame(b, h, Sorted(b.sources.Keys));
  }

  lemma {:induction false} FramesOnly(h: R.History, h': R.History, n: nat, ids: seq<nat>)
    requires h'.frames == h.frames
    ensures R.FrameAt(h', n, ids) == R.FrameAt(h, n, ids)
  {
    if ids != [] { FramesOnly(h, h', n, ids[..|ids| - 1]); }
  }

  lemma NewestLeft(b: R.Buffer, h: R.History, n: nat)
    requires R.Refines(b, h) && !R.HasComplete(b) && b.sources != map[] && b.last == n + 1
    requires forall i | i in h.frames :: |h.frames[i]| <= WORD32
    ensures IsNewest(h, n)
  {
    R.CompleteIff(b, h);
    assert h.frames.Keys == b.sources.Keys && b.sources.Keys != {};
    assert h.frames != map[];
    forall i | i in h.frames ensures |h.frames[i]| > n + 1 { assert R.SourceRefines(b.sources[i], h.frames[i], h.popped); }
    var i :| i in h.frames && |h.frames[i]| <= h.popped + 1;
    assert R.SourceRefines(b.sources[i], h.frames[i], h.popped);
  }

  /** Consuming keeps the record, and sends the newest frame turned the right way up, or nothing. */
  lemma ConsumeTells(s: State, h: R.History, uri: Uri)
    requires uri in s.streams && R.Safe(s.streams[uri].buffer) && R.HasComplete(s.streams[uri].buffer)
    requires R.Refines(s.streams[uri].buffer, h)
    ensures var s' := Consume(s, uri);
            && Tells(s', h.(popped := s'.streams[uri].buffer.last), uri)
            && |s'.signals| == |s.signals| + 1 && s'.signals[..|s.signals|] == s.signals
            && IsServing(h, uri, s'.signals[|s.signals|])
  {
    var b := s.streams[uri].buffer;
    var r := Drained(b, []);
    DrainedNewest(b, h, []);
    Consumed(s, uri);
    ServesNewest(b, h, uri);
    SameRefines(r.1, Consume(s, uri).streams[uri].buffer, h.(popped := r.1.last));
  }

  lemma ServesNewest(b: R.Buffer, h: R.History, uri: Uri)
    requires R.Safe(b) && R.HasComplete(b) && R.Refines(b, h)
    ensures IsServing(h, uri, Served(uri, Drained(b, [])))
  {
    DrainedNewest(b, h, []);
    LeftBehind(b, h);
    ServedIsShown(uri, Drained(b, []));
  }

  lemma Consumed(s: State, uri: Uri)
    requires uri in s.streams && R.Safe(s.streams[uri].buffer)
    ensures var s', r := Consume(s, uri), Drained(s.streams[uri].buffer, []);
            && s'.signals == s.signals + [Served(uri, r)] && uri in s'.streams
            && s'.streams[uri].buffer.last == r.1.last && s'.streams[uri].buffer.sources == r.1.sources
  {
  }

  lemma LeftBehind(b: R.Buffer, h: R.History)
    requires R.Safe(b) && R.HasComplete(b) && R.Refines(b, h)
    ensures var b' := Drained(b, []).1; b'.last > 0 && IsNewest(h, b'.last - 1)
  {
    var b' := Drained(b, []).1;
    R.CompleteIff(b, h);
    DrainedNewest(b, h, []);
    DrainedSafe(b, []);
    assert b'.sources.Keys != {} by { assert b.sources.Keys != {}; }
    NewestLeft(b', h.(popped := b'.last), b'.last - 1);
    assert IsNewest(h, b'.last - 1);
  }

  lemma SameRefines(b: R.Buffer, b': R.Buffer, h: R.History)
    requires R.Refines(b, h) && b'.sources == b.sources && b'.last == b.last
    ensures R.Refines(b', h)
  {
    forall i | i in b'.sources ensures R.SourceRefines(b'.sources[i], h.frames[i], h.popped) {
      assert R.SourceRefines(b.sources[i], h.frames[i], h.popped);
    }
  }

  /** A signal that answers for the newest frame of history h: the frame itself, or the news that it cannot be shown. */
  ghost predicate IsServing(h: R.History, uri: Uri, g: Signal) {
    exists n: nat :: IsNewest(h, n) && ShownAs(R.FrameAt(h, n, Sorted(h.frames.Keys)), uri, n, g)
  }

  lemma FinishTells(s: State, h: R.History, uri: Uri, i: nat)
    requires Valid(s) && Permitted(s, FrameFinished(uri, i)) && Tells(s, h, uri)
    ensures Tells(Apply(s, FrameFinished(uri, i)), StoryStep(s, h, FrameFinished(uri, i), uri), uri)
  {
    if uri in s.streams {
      var st := s.streams[uri];
      R.FinishRefines(st.buffer, h, i);
      if R.Finish(st.buffer, i).Some? {
        var b := R.Finish(st.buffer, i).value;
        R.SafeFinish(st.buffer, i);
        var s' := SetStream(s, uri, st.(buffer := b));
        if b.allowed && R.HasComplete(b) { ConsumeTells(s', R.Record(h, R.FinishFrame(i)), uri); }
      }
    }
  }

  lemma RequestTells(s: State, h: R.History, uri: Uri)
    requires Valid(s) && Tells(s, h, uri)
    ensures Tells(Apply(s, RequestFrame(uri)), StoryStep(s, h, RequestFrame(uri), uri), uri)
  {
    if uri in s.streams {
      var st := s.streams[uri];
      var b := st.buffer.(allowed := true);
      SameSafe(st.buffer, b);
      SameRefines(st.buffer, b, h);
      if R.HasComplete(b) { ConsumeTells(SetStream(s, uri, st.(buffer := b)), h, uri); }
    }
  }

  lemma RosterTells(s: State, h: R.History, op: Op)
    requires Valid(s) && Permitted(s, op) && Tells(s, h, op.uri) && !op.FrameFinished? && !op.RequestFrame?
    ensures Tells(Apply(s, op), StoryStep(s, h, op, op.uri), op.uri)
  {
    assert R.Refines(StreamOf(s, op.uri).buffer, h);
    match op {
      case AddSource(uri, i) => AddTells(s, h, uri, i);
      case RemoveSource(uri, i) => RemoveTells(s, h, uri, i);
      case ProcessTile(uri, i, tile) =>
        if uri in s.streams { R.StepRefines(s.streams[uri].buffer, h, R.InsertTile(i, tile)); }
      case _ =>
    }
  }

  lemma AddTells(s: State, h: R.History, uri: Uri, i: nat)
    requires Valid(s) && Tells(s, h, uri)
    ensures Tells(Apply(s, AddSource(uri, i)), StoryStep(s, h, AddSource(uri, i), uri), uri)
  {
    assert R.Refines(StreamOf(s, uri).buffer, h);
    R.RosterRefines(StreamOf(s, uri).buffer, h, R.AddSource(i));
  }

  lemma RemoveTells(s: State, h: R.History, uri: Uri, i: nat)
    requires Valid(s) && Tells(s, h, uri)
    ensures Tells(Apply(s, RemoveSource(uri, i)), StoryStep(s, h, RemoveSource(uri, i), uri), uri)
  {
    if uri in s.streams { R.RosterRefines(s.streams[uri].buffer, h, R.RemoveSource(i)); }
  }

  lemma OthersUntouched(s: State, op: Op, uri: Uri)
    requires Valid(s) && op.uri != uri
    ensures uri in Apply(s, op).streams <==> uri in s.streams
    ensures uri in s.streams ==> Apply(s, op).streams[uri] == s.streams[uri]
  {
    if op.FrameFinished? { FinishElsewhere(s, op.uri, op.source, uri); }
    else if op.RequestFrame? { RequestElsewhere(s, op.uri, uri); }
    else { RosterElsewhere(s, op, uri); }
  }

  lemma RosterElsewhere(s: State, op: Op, u: Uri)
    requires Valid(s) && u != op.uri && !op.FrameFinished? && !op.RequestFrame?
    ensures var s' := Apply(s, op);
            (u in s'.streams <==> u in s.streams) && (u in s.streams ==> s'.streams[u] == s.streams[u])
  {
  }

  lemma FinishElsewhere(s: State, uri: Uri, i: nat, u: Uri)
    requires Valid(s) && u != uri
    ensures var s' := Apply(s, FrameFinished(uri, i));
            (u in s'.streams <==> u in s.streams) && (u in s.streams ==> s'.streams[u] == s.streams[u])
  {
  }

  lemma RequestElsewhere(s: State, uri: Uri, u: Uri)
    requires Valid(s) && u != uri
    ensures var s' := Apply(s, RequestFrame(uri));
            (u in s'.streams <==> u in s.streams) && (u in s.streams ==> s'.streams[u] == s.streams[u])
  {
  }

  lemma {:induction false} StoryTold(ops: seq<Op>, uri: Uri)
    requires Legal(ops)
    ensures Tells(Execute(ops), Story(ops, uri), uri)
  {
    if ops != [] {
      var before, op := ops[..|ops| - 1], ops[|ops| - 1];
      StoryTold(before, uri);
      var s, h := Execute(before), Story(before, uri);
      if op.uri != uri { OthersUntouched(s, op, uri); }
      else if op.FrameFinished? { FinishTells(s, h, uri, op.source); }
      else if op.RequestFrame? { RequestTells(s, h, uri); }
      else { RosterTells(s, h, op); }
    }
  }

  /**
   * Whatever requestFrame sends is the newest frame that is complete for all sources, with exactly the
   * tiles each of them sent for it, in ascending order of the sources, mirrored if it was bottom-up.
   */
  lemma RequestSendsNewest(ops: seq<Op>, uri: Uri)
    requires Legal(ops) && uri in Execute(ops).streams
    requires R.HasComplete(Execute(ops).streams[uri].buffer)
    ensures var s, s' := Execute(ops), Apply(Execute(ops), RequestFrame(uri));
            && |s'.signals| == |s.signals| + 1
            && IsServing(Story(ops, uri), uri, s'.signals[|s.signals|])
  {
    StoryTold(ops, uri);
    RequestSends(Execute(ops), Story(ops, uri), uri);
  }

  lemma RequestSends(s: State, h: R.History, uri: Uri)
    requires Valid(s) && Tells(s, h, uri) && uri in s.streams && R.HasComplete(s.streams[uri].buffer)
    ensures var s' := Apply(s, RequestFrame(uri));
            && |s'.signals| == |s.signals| + 1
            && IsServing(h, uri, s'.signals[|s.signals|])
  {
    var b := s.streams[uri].buffer.(allowed := true);
    SameRefines(s.streams[uri].buffer, b, h);
    RequestConsumes(s, uri);
    ConsumeTells(SetStream(s, uri, s.streams[uri].(buffer := b)), h, uri);
  }

  lemma RequestConsumes(s: State, uri: Uri)
    requires Valid(s) && uri in s.streams && R.HasComplete(s.streams[uri].buffer)
    ensures var b := s.streams[uri].buffer.(allowed := true);
            && R.Safe(b) && R.HasComplete(b)
            && Apply(s, RequestFrame(uri)) == Consume(SetStream(s, uri, s.streams[uri].(buffer := b)), uri)
  {
    var b := s.streams[uri].buffer.(allowed := true);
    SameSafe(s.streams[uri].buffer, b);
    SameComplete(s.streams[uri].buffer, b);
  }

  /** And so is what a finish sends to a receiver that is waiting, the finished frame included. */
  lemma FinishSendsNewest(ops: seq<Op>, uri: Uri, i: nat)
    requires Legal(ops) && uri in Execute(ops).streams
    requires i in Execute(ops).streams[uri].buffer.sources && Execute(ops).streams[uri].buffer.allowed
    requires R.Finish(Execute(ops).streams[uri].buffer, i).Some?
    requires R.HasComplete(R.Finish(Execute(ops).streams[uri].buffer, i).value)
    ensures var s, s' := Execute(ops), Apply(Execute(ops), FrameFinished(uri, i));
            && |s'.signals| == |s.signals| + 1
            && IsServing(R.Record(Story(ops, uri), R.FinishFrame(i)), uri, s'.signals[|s.signals|])
  {
    StoryTold(ops, uri);
    FinishSends(Execute(ops), Story(ops, uri), uri, i);
  }

  lemma FinishSends(s: State, h: R.History, uri: Uri, i: nat)
    requires Valid(s) && Tells(s, h, uri) && uri in s.streams && i in s.streams[uri].buffer.sources
    requires s.streams[uri].buffer.allowed
    requires R.Finish(s.streams[uri].buffer, i).Some? && R.HasComplete(R.Finish(s.streams[uri].buffer, i).value)
    ensures var s' := Apply(s, FrameFinished(uri, i));
            && |s'.signals| == |s.signals| + 1
            && IsServing(R.Record(h, R.FinishFrame(i)), uri, s'.signals[|s.signals|])
  {
    var st := s.streams[uri];
    R.FinishRefines(st.buffer, h, i);
    FinishConsumes(s, uri, i);
    ConsumeTells(SetStream(s, uri, st.(buffer := R.Finish(st.buffer, i).value)), R.Record(h, R.FinishFrame(i)), uri);
  }

  lemma FinishConsumes(s: State, uri: Uri, i: nat)
    requires Valid(s) && uri in s.streams && i in s.streams[uri].buffer.sources && s.streams[uri].buffer.allowed
    requires R.Finish(s.streams[uri].buffer, i).Some? && R.HasComplete(R.Finish(s.streams[uri].buffer, i).value)
    ensures var b := R.Finish(s.streams[uri].buffer, i).value;
            && R.Safe(b) && b == R.Apply(s.streams[uri].buffer, R.FinishFrame(i))
            && Apply(s, FrameFinished(uri, i)) == Consume(SetStream(s, uri, s.streams[uri].(buffer := b)), uri)
  {
    R.SafeFinish(s.streams[uri].buffer, i);
  }

  // ---------------------------------------------------------------------------------------
  // Frame numbers
  // ---------------------------------------------------------------------------------------

  /** The numbers of the frames sent since the stream's first source joined. */
  ghost function NumbersStep(s: State, numbers: seq<nat>, op: Op, uri: Uri): seq<nat>
    requires Valid(s)
  {
    var s' := Apply(s, op);
    var n := |s.signals|;
    if uri !in s'.streams || s'.streams[uri].buffer.sources == map[] then []
    else if n < |s'.signals| && s'.signals[n].Sent? && s'.signals[n].uri == uri then numbers + [s'.signals[n].number]
    else numbers
  }

  ghost function Numbers(ops: seq<Op>, uri: Uri): seq<nat> {
    if ops == [] then [] else
    NumbersStep(Execute(ops[..|ops| - 1]), Numbers(ops[..|ops| - 1], uri), ops[|ops| - 1], uri)
  }

  ghost predicate Rising(s: State, numbers: seq<nat>, uri: Uri) {
    && (forall j, k :: 0 <= j < k < |numbers| ==> numbers[j] < numbers[k])
    && (numbers != [] ==> uri in s.streams && numbers[|numbers| - 1] < s.streams[uri].buffer.last)
  }

  lemma ConsumeRises(s: State, numbers: seq<nat>, uri: Uri)
    requires uri in s.streams && R.Safe(s.streams[uri].buffer) && R.HasComplete(s.streams[uri].buffer)
    requires Rising(s, numbers, uri)
    ensures var s' := Consume(s, uri);
            && s'.signals[..|s.signals|] == s.signals && |s'.signals| == |s.signals| + 1
            && (s'.signals[|s.signals|].Sent? ==>
                  s'.signals[|s.signals|].uri == uri && Rising(s', numbers + [s'.signals[|s.signals|].number], uri))
            && Rising(s', numbers, uri)
  {
    DrainedSafe(s.streams[uri].buffer, []);
  }

  lemma FinishRises(s: State, numbers: seq<nat>, uri: Uri, i: nat)
    requires Valid(s) && Rising(s, numbers, uri) && uri in s.streams && i in s.streams[uri].buffer.sources
    ensures Rising(Apply(s, FrameFinished(uri, i)), NumbersStep(s, numbers, FrameFinished(uri, i), uri), uri)
  {
    var st := s.streams[uri];
    if R.Finish(st.buffer, i).Some? {
      var b := R.Finish(st.buffer, i).value;
      R.SafeFinish(st.buffer, i);
      if b.allowed && R.HasComplete(b) { ConsumeRises(SetStream(s, uri, st.(buffer := b)), numbers, uri); }
    }
  }

  lemma RequestRises(s: State, numbers: seq<nat>, uri: Uri)
    requires Valid(s) && Rising(s, numbers, uri) && uri in s.streams
    ensures Rising(Apply(s, RequestFrame(uri)), NumbersStep(s, numbers, RequestFrame(uri), uri), uri)
  {
    var st := s.streams[uri];
    var b := st.buffer.(allowed := true);
    SameSafe(st.buffer, b);
    if R.HasComplete(b) { ConsumeRises(SetStream(s, uri, st.(buffer := b)), numbers, uri); }
  }

  lemma RosterRises(s: State, numbers: seq<nat>, op: Op)
    requires Valid(s) && Permitted(s, op) && Rising(s, numbers, op.uri) && !op.FrameFinished? && !op.RequestFrame?
    ensures Rising(Apply(s, op), NumbersStep(s, numbers, op, op.uri), op.uri)
  {
  }

  lemma RisingStep(s: State, numbers: seq<nat>, op: Op, uri: Uri)
    requires Valid(s) && Permitted(s, op) && Rising(s, numbers, uri)
    ensures Rising(Apply(s, op), NumbersStep(s, numbers, op, uri), uri)
  {
    if op.uri != uri {
      OthersUntouched(s, op, uri);
      if |s.signals| < |Apply(s, op).signals| { OthersSilent(s, op, uri); }
    } else {
      match op {
        case FrameFinished(_, i) => if uri in s.streams { FinishRises(s, numbers, uri, i); }
        case RequestFrame(_) => if uri in s.streams { RequestRises(s, numbers, uri); }
        case _ => RosterRises(s, numbers, op);
      }
    }
  }

  lemma OthersSilent(s: State, op: Op, uri: Uri)
    requires Valid(s) && op.uri != uri && |s.signals| < |Apply(s, op).signals|
    ensures Apply(s, op).signals[|s.signals|].uri == op.uri
  {
    if op.FrameFinished? { FinishSpeaks(s, op.uri, op.source); }
    else if op.RequestFrame? { RequestSpeaks(s, op.uri); }
    else { RosterSpeaks(s, op); }
  }

  lemma FinishSpeaks(s: State, uri: Uri, i: nat)
    requires Valid(s) && |s.signals| < |Apply(s, FrameFinished(uri, i)).signals|
    ensures Apply(s, FrameFinished(uri, i)).signals[|s.signals|].uri == uri
  {
  }

  lemma RequestSpeaks(s: State, uri: Uri)
    requires Valid(s) && |s.signals| < |Apply(s, RequestFrame(uri)).signals|
    ensures Apply(s, RequestFrame(uri)).signals[|s.signals|].uri == uri
  {
  }

  lemma RosterSpeaks(s: State, op: Op)
    requires Valid(s) && !op.FrameFinished? && !op.RequestFrame? && |s.signals| < |Apply(s, op).signals|
    ensures Apply(s, op).signals[|s.signals|].uri == op.uri
  {
  }

  /** No frame is sent twice and none after a newer one, as long as the stream has sources. */
  lemma {:induction false} NumbersRise(ops: seq<Op>, uri: Uri)
    requires Legal(ops)
    ensures Rising(Execute(ops), Numbers(ops, uri), uri)
  {
    if ops != [] {
      NumbersRise(ops[..|ops| - 1], uri);
      RisingStep(Execute(ops[..|ops| - 1]), Numbers(ops[..|ops| - 1], uri), ops[|ops| - 1], uri);
    }
  }

  // ---------------------------------------------------------------------------------------
  // Lifecycle
  // ---------------------------------------------------------------------------------------

  /** Every stored stream has a source or an observer. */
  ghost predicate Peopled(s: State) {
    forall u {:trigger s.streams[u]} | u in s.streams :: !NobodyLeft(s.streams[u])
  }

  /** Openings and closings balance: one more opening exactly while the stream is stored. */
  predicate Balanced(s: State, uri: Uri) {
    TallyOf(s.signals, uri).openings == TallyOf(s.signals, uri).closings + if uri in s.streams then 1 else 0
  }

  /** A sole source that joins again before its first frame is out, or the deletion of a stream that is not there. */
  predicate Spoils(s: State, op: Op) {
    match op
    case AddSource(uri, i) =>
      && uri in s.streams && s.streams[uri].observers == 0 && s.streams[uri].buffer.last == 0
      && i in s.streams[uri].buffer.sources && |s.streams[uri].buffer.sources| == 1
    case DeleteStream(uri) => uri !in s.streams
    case _ => false
  }

  lemma ConsumePeopled(s: State, uri: Uri, u: Uri)
    requires uri in s.streams && R.Safe(s.streams[uri].buffer) && Peopled(s)
    ensures Peopled(Consume(s, uri)) && Consume(s, uri).streams.Keys == s.streams.Keys
    ensures Balanced(Consume(s, uri), u) == Balanced(s, u)
  {
    var b, b' := s.streams[uri].buffer, Drained(s.streams[uri].buffer, []).1;
    DrainedSafe(b, []);
    assert b'.sources == map[] <==> b'.sources.Keys == {};
    assert b.sources == map[] <==> b.sources.Keys == {};
    ConsumeTally(s, uri, u);
  }

  /** Counting one source after adding it means that there was none, unless it was there already. */
  lemma FirstSource(b: R.Buffer, i: nat)
    requires R.Add(b, i).Some?
    ensures R.Add(b, i).value.sources != map[]
    ensures |R.Add(b, i).value.sources| == 1 <==> b.sources == map[] || (i in b.sources && |b.sources| == 1)
  {
    var b' := R.Add(b, i).value;
    assert i in b'.sources;
    if i !in b.sources {
      assert b'.sources.Keys == b.sources.Keys + {i};
      assert |b'.sources| == |b'.sources.Keys| && |b.sources| == |b.sources.Keys|;
      assert |b.sources| == 0 <==> b.sources == map[];
    }
  }

  lemma SourceJoins(s: State, uri: Uri, i: nat, u: Uri)
    requires Valid(s) && Peopled(s) && Balanced(s, u)
    ensures Peopled(Apply(s, AddSource(uri, i)))
    ensures Balanced(Apply(s, AddSource(uri, i)), u) <==> !(Spoils(s, AddSource(uri, i)) && uri == u)
  {
    var st := StreamOf(s, uri);
    JoinTally(s, uri, i, u);
    JoinedStream(s, uri, i);
    if R.Add(st.buffer, i).Some? { FirstSource(st.buffer, i); }
  }

  lemma ObserverJoins(s: State, uri: Uri, u: Uri)
    requires Peopled(s) && Balanced(s, u)
    ensures Peopled(Observed(s, uri)) && Balanced(Observed(s, uri), u)
  {
    ObserverTally(s, uri, u);
    ObservedStreams(s, uri);
  }

  lemma ObservedStreams(s: State, uri: Uri)
    requires Peopled(s)
    ensures Peopled(Observed(s, uri)) && Observed(s, uri).streams.Keys == s.streams.Keys + {uri}
    ensures uri in s.streams ==>
              !(StreamOf(s, uri).observers == 0 && StreamOf(s, uri).buffer.sources == map[])
    ensures uri !in s.streams ==> StreamOf(s, uri).observers == 0 && StreamOf(s, uri).buffer.sources == map[]
  {
  }

  lemma FinishBalance(s: State, uri: Uri, i: nat, u: Uri)
    requires Valid(s) && Peopled(s) && Balanced(s, u) && uri in s.streams && i in s.streams[uri].buffer.sources
    ensures Peopled(Apply(s, FrameFinished(uri, i))) && Balanced(Apply(s, FrameFinished(uri, i)), u)
  {
    var st := s.streams[uri];
    FinishApplied(s, uri, i);
    if R.Finish(st.buffer, i).Some? {
      var b := R.Finish(st.buffer, i).value;
      FinishedPeopled(s, uri, i, u);
      if b.allowed && R.HasComplete(b) { ConsumePeopled(SetStream(s, uri, st.(buffer := b)), uri, u); }
    } else {
      TallyEmit(s, Error(uri), u);
    }
  }

  lemma FinishedPeopled(s: State, uri: Uri, i: nat, u: Uri)
    requires Peopled(s) && Balanced(s, u) && uri in s.streams && i in s.streams[uri].buffer.sources
    requires R.Finish(s.streams[uri].buffer, i).Some?
    ensures var s' := SetStream(s, uri, s.streams[uri].(buffer := R.Finish(s.streams[uri].buffer, i).value));
            Peopled(s') && Balanced(s', u)
  {
    assert i in R.Finish(s.streams[uri].buffer, i).value.sources;
  }

  lemma RequestBalance(s: State, uri: Uri, u: Uri)
    requires Valid(s) && Peopled(s) && Balanced(s, u) && uri in s.streams
    ensures Peopled(Apply(s, RequestFrame(uri))) && Balanced(Apply(s, RequestFrame(uri)), u)
  {
    var b := s.streams[uri].buffer.(allowed := true);
    RequestApplied(s, uri);
    AllowedPeopled(s, uri, u);
    if R.HasComplete(b) { ConsumePeopled(SetStream(s, uri, s.streams[uri].(buffer := b)), uri, u); }
  }

  lemma AllowedPeopled(s: State, uri: Uri, u: Uri)
    requires Peopled(s) && Balanced(s, u) && uri in s.streams
    ensures var s' := SetStream(s, uri, s.streams[uri].(buffer := s.streams[uri].buffer.(allowed := true)));
            Peopled(s') && Balanced(s', u)
  {
  }

  /**
   * Every stream that is stored has somebody in it. Openings and closings stay balanced through a step
   * if and only if it is not one of the two kinds that Spoils describes.
   */
  lemma LifecycleStep(s: State, op: Op, u: Uri)
    requires Valid(s) && Permitted(s, op) && Peopled(s) && Balanced(s, u)
    ensures Peopled(Apply(s, op))
    ensures Balanced(Apply(s, op), u) <==> !(Spoils(s, op) && op.uri == u)
  {
    var uri := op.uri;
    match op {
      case AddSource(_, i) => SourceJoins(s, uri, i, u);
      case AddObserver(_) => ObserverJoins(s, uri, u);
      case FrameFinished(_, i) => if uri in s.streams { FinishBalance(s, uri, i, u); }
      case RequestFrame(_) => if uri in s.streams { RequestBalance(s, uri, u); }
      case ProcessTile(_, i, tile) =>
        if uri in s.streams { assert i in R.Insert(s.streams[uri].buffer, i, tile).sources; }
      case RemoveSource(_, i) => SourceLeaves(s, uri, i, u);
      case RemoveObserver(_) => ObserverLeaves(s, uri, u);
      case DeleteStream(_) => DeletionBalance(s, uri, u);
    }
  }

  lemma SourceLeaves(s: State, uri: Uri, i: nat, u: Uri)
    requires Valid(s) && Peopled(s) && Balanced(s, u)
    ensures Peopled(Apply(s, RemoveSource(uri, i))) && Balanced(Apply(s, RemoveSource(uri, i)), u)
  {
    var st := StreamOf(s, uri);
    if uri in s.streams { LeftBalance(s, uri, st.(buffer := R.Remove(st.buffer, i)), u); }
  }

  lemma LeftBalance(s: State, uri: Uri, st: Stream, u: Uri)
    requires Peopled(s) && Balanced(s, u) && uri in s.streams
    ensures Peopled(Left(s, uri, st)) && Balanced(Left(s, uri, st), u)
  {
    LeftTally(s, uri, st, u);
  }

  lemma ObserverLeaves(s: State, uri: Uri, u: Uri)
    requires Valid(s) && Peopled(s) && Balanced(s, u)
    ensures Peopled(Apply(s, RemoveObserver(uri))) && Balanced(Apply(s, RemoveObserver(uri)), u)
  {
    var st := StreamOf(s, uri);
    if uri in s.streams { LeftBalance(s, uri, st.(observers := if st.observers > 0 then st.observers - 1 else 0), u); }
  }

  lemma DeletionBalance(s: State, uri: Uri, u: Uri)
    requires Valid(s) && Peopled(s) && Balanced(s, u)
    ensures Peopled(Apply(s, DeleteStream(uri)))
    ensures Balanced(Apply(s, DeleteStream(uri)), u) <==> uri in s.streams || uri != u
  {
    DeletedTally(s, uri, u);
  }

  /** The same source joins twice: the stream is opened twice. */
  lemma RejoinSpoils(uri: Uri) returns (s: State)
    ensures Reachable(s) && uri in s.streams && TallyOf(s.signals, uri).openings == 2 && !Balanced(s, uri)
  {
    var s0 := Execute([]);
    assert Legal([]) && s0 == State(map[], []);
    Follow(s0, AddSource(uri, 0));
    var s1 := Apply(s0, AddSource(uri, 0));
    assert StreamOf(s1, uri) == Stream(R.Buffer(0, map[0 := R.NEW_SOURCE], false), 0);
    Follow(s1, AddSource(uri, 0));
    s := Apply(s1, AddSource(uri, 0));
    JoinTally(s0, uri, 0, uri);
    JoinTally(s1, uri, 0, uri);
    JoinedStream(s1, uri, 0);
  }

  /** A stream that was never there is deleted: it is closed without having been opened. */
  lemma DeletionSpoils(uri: Uri) returns (s: State)
    ensures Reachable(s) && uri !in s.streams && TallyOf(s.signals, uri).closings == 1 && !Balanced(s, uri)
  {
    var s0 := StartReached();
    Follow(s0, DeleteStream(uri));
    s := Apply(s0, DeleteStream(uri));
    DeletedTally(s0, uri, uri);
    assert TallyOf([], uri) == Tally(0, 0, 0);
  }

  lemma StartReached() returns (s: State)
    ensures s == State(map[], []) && Valid(s) && Reachable(s)
  {
    s := Execute([]);
    assert Legal([]);
  }

  /** Live source identifiers are distinct, and only stored streams are deleted. */
  ghost predicate Orderly(ops: seq<Op>) {
    ops == [] || (Orderly(ops[..|ops| - 1]) && !Spoils(Execute(ops[..|ops| - 1]), ops[|ops| - 1]))
  }

  lemma {:induction false} Lifecycle(ops: seq<Op>, uri: Uri)
    requires Legal(ops) && Orderly(ops)
    ensures Peopled(Execute(ops)) && Balanced(Execute(ops), uri)
  {
    if ops != [] {
      Lifecycle(ops[..|ops| - 1], uri);
      LifecycleStep(Execute(ops[..|ops| - 1]), ops[|ops| - 1], uri);
    }
  }
}
