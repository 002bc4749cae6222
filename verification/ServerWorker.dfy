/**
 * The server's end of a connection (deflect/server/ServerWorker.cpp): finding the messages in the
 * byte stream, handling them, and reporting sources and observers.
 *
 * Protocol is the value of the worker's protocol fields and the signals it has emitted; bytes reach
 * the socket in chunks of any size. Registration for events and the events themselves are left out.
 */
module ServerWorkers {
  import opened Common
  import opened Types
  import opened Wire

  const PIXELSTREAM_OPEN: Word := 3
  const FINISH_FRAME: Word := 4
  const PIXELSTREAM: Word := 5
  const QUIT: Word := 12
  const SIZE_HINTS: Word := 13
  const DATA: Word := 14
  const IMAGE_VIEW: Word := 15
  const OBSERVER_OPEN: Word := 16
  const IMAGE_ROW_ORDER: Word := 17
  const IMAGE_CHANNEL: Word := 18

  /** sizeof(SegmentParameters): four words, the format, and padding. */
  const PARAMETERS_SIZE: nat := 20

  /** sizeof(SizeHints): six words. */
  const HINTS_SIZE: nat := 24

  type Uri = seq<Byte>

  datatype Signal =
    | AddStreamSource(uri: Uri)
    | AddObserver(uri: Uri)
    | RemoveStreamSource(uri: Uri)
    | RemoveObserver(uri: Uri)
    | ReceivedTile(uri: Uri, tile: Tile)
    | ReceivedFrameFinished(uri: Uri)
    | ReceivedSizeHints(uri: Uri, hints: seq<Byte>)
    | ReceivedData(uri: Uri, data: seq<Byte>)

  /** Signals about the connection itself, kept apart. */
  datatype Notice = ConnectionError(uri: Uri) | ConnectionClosed

  datatype Protocol = Protocol(
    streamId: Uri, ended: bool, observer: bool,
    view: View, rowOrder: RowOrder, channel: Byte,
    signals: seq<Signal>)

  const NEW_PROTOCOL: Protocol := Protocol([], false, false, Mono, TopDown, 0, [])

  // ---------------------------------------------------------------------------------------
  // Handling a message
  // ---------------------------------------------------------------------------------------

  function ViewByte(v: View): Byte {
    match v
    case Mono => 0
    case LeftEye => 1
    case RightEye => 2
    case SideBySide => 3
  }

  /** Only views of one eye are taken over. */
  function NewView(current: View, b: Byte): View {
    if b == 0 then Mono else if b == 1 then LeftEye else if b == 2 then RightEye else current
  }

  function OrderWord(o: RowOrder): Word {
    if o == TopDown then 0 else 1
  }

  function NewOrder(current: RowOrder, w: Word): RowOrder {
    if w == 0 then TopDown else if w == 1 then BottomUp else current
  }

  function ParametersBytes(t: Tile): (r: seq<Byte>)
    ensures |r| == PARAMETERS_SIZE
  {
    LittleEndian(t.x) + LittleEndian(t.y) + LittleEndian(t.width) + LittleEndian(t.height) + [t.format, 0, 0, 0]
  }

  function ParseTile(p: Protocol, body: seq<Byte>): Tile
    requires |body| >= PARAMETERS_SIZE
  {
    Tile(FromLittleEndian(body[..4]), FromLittleEndian(body[4..8]), FromLittleEndian(body[8..12]),
         FromLittleEndian(body[12..16]), body[16], p.rowOrder, p.view, p.channel, body[PARAMETERS_SIZE..])
  }

  /** The size of the structure that the body of a message is cast to, without looking at its own size. */
  function CastSize(kind: Word): nat {
    if kind == PIXELSTREAM then PARAMETERS_SIZE
    else if kind == SIZE_HINTS then HINTS_SIZE
    else if kind == IMAGE_ROW_ORDER then 4
    else if kind == IMAGE_VIEW || kind == IMAGE_CHANNEL then 1
    else 0
  }

  predicate BodyFits(m: Message) {
    |m.body| >= CastSize(m.kind)
  }

  /** The message as it is read: a body that is too short goes on with what lies behind it in memory. */
  function AsRead(m: Message, behind: seq<Byte>): (r: Message)
    requires |behind| >= HINTS_SIZE
    ensures BodyFits(r) && (BodyFits(m) ==> r == m) && r.kind == m.kind && r.uri == m.uri && m.body <= r.body
  {
    if BodyFits(m) then m else m.(body := (m.body + behind)[..CastSize(m.kind)])
  }

  function Emit(p: Protocol, s: Signal): Protocol {
    p.(signals := p.signals + [s])
  }

  predicate Started(p: Protocol) {
    p.streamId != []
  }

  /** The protocol errors: before the start, a second start, an empty identifier, a restart. */
  predicate IsError(p: Protocol, m: Message) {
    if m.kind == PIXELSTREAM_OPEN || m.kind == OBSERVER_OPEN then Started(p) || m.uri == [] || p.ended
    else !Started(p)
  }

  function Removal(p: Protocol): Signal {
    if p.observer then RemoveObserver(p.streamId) else RemoveStreamSource(p.streamId)
  }

  /** handleMessage, for a message that is no error; unknown types are ignored. */
  function Accept(p: Protocol, m: Message): Protocol
    requires BodyFits(m) && !IsError(p, m)
  {
    if m.kind == PIXELSTREAM_OPEN then Emit(p.(streamId := m.uri, observer := false), AddStreamSource(m.uri))
    else if m.kind == OBSERVER_OPEN then Emit(p.(streamId := m.uri, observer := true), AddObserver(m.uri))
    else if m.kind == QUIT then Emit(p, Removal(p)).(streamId := [], ended := true)
    else if m.kind == FINISH_FRAME then Emit(p, ReceivedFrameFinished(p.streamId))
    else if m.kind == PIXELSTREAM then Emit(p, ReceivedTile(p.streamId, ParseTile(p, m.body)))
    else if m.kind == IMAGE_VIEW then p.(view := NewView(p.view, m.body[0]))
    else if m.kind == IMAGE_ROW_ORDER then p.(rowOrder := NewOrder(p.rowOrder, FromLittleEndian(m.body[..4])))
    else if m.kind == IMAGE_CHANNEL then p.(channel := m.body[0])
    else if m.kind == SIZE_HINTS then Emit(p, ReceivedSizeHints(p.streamId, m.body[..HINTS_SIZE]))
    else if m.kind == DATA then Emit(p, ReceivedData(p.streamId, m.body))
    else p
  }

  /**
   * receiveMessage once the message is there: an error changes nothing and gives the connection up.
   * Messages are taken as they are read; one whose body is too short has no effect here.
   */
  function Handle(p: Protocol, m: Message): Protocol {
    if !BodyFits(m) || IsError(p, m) then p else Accept(p, m)
  }

  function HandleAll(p: Protocol, ms: seq<Message>): Protocol {
    if ms == [] then p else Handle(HandleAll(p, ms[..|ms| - 1]), ms[|ms| - 1])
  }

  lemma HandleOne(p: Protocol, ms: seq<Message>, m: Message)
    ensures HandleAll(p, ms + [m]) == Handle(HandleAll(p, ms), m)
  {
    assert (ms + [m])[..|ms|] == ms;
  }

  /** The destructor of a worker whose client did not say goodbye. */
  function Destroy(p: Protocol): Protocol {
    if Started(p) then Emit(p, Removal(p)) else p
  }

  // ---------------------------------------------------------------------------------------
  // Sources and observers are reported in pairs
  // ---------------------------------------------------------------------------------------

  predicate IsMembership(s: Signal) {
    s.AddStreamSource? || s.AddObserver? || s.RemoveStreamSource? || s.RemoveObserver?
  }

  function Memberships(signals: seq<Signal>): seq<Signal> {
    if signals == [] then []
    else Memberships(signals[..|signals| - 1]) + if IsMembership(signals[|signals| - 1]) then [signals[|signals| - 1]] else []
  }

  function Addition(p: Protocol): Signal {
    if p.observer then AddObserver(p.streamId) else AddStreamSource(p.streamId)
  }

  /** An addition and the removal that belongs to it. */
  predicate IsPair(s: seq<Signal>) {
    && |s| == 2
    && (|| (s[0].AddStreamSource? && s[1] == RemoveStreamSource(s[0].uri))
        || (s[0].AddObserver? && s[1] == RemoveObserver(s[0].uri)))
  }

  ghost predicate Paired(p: Protocol) {
    if Started(p) then !p.ended && Memberships(p.signals) == [Addition(p)]
    else if p.ended then IsPair(Memberships(p.signals))
    else Memberships(p.signals) == []
  }

  lemma EmitMemberships(p: Protocol, s: Signal)
    ensures Memberships(Emit(p, s).signals) == Memberships(p.signals) + if IsMembership(s) then [s] else []
  {
    assert Emit(p, s).signals[..|p.signals|] == p.signals;
  }

  lemma HandlePaired(p: Protocol, m: Message)
    requires Paired(p)
    ensures Paired(Handle(p, m))
  {
    if !BodyFits(m) || IsError(p, m) {
    } else if m.kind == PIXELSTREAM_OPEN || m.kind == OBSERVER_OPEN {
      var p' := p.(streamId := m.uri, observer := m.kind == OBSERVER_OPEN);
      EmitMemberships(p', Addition(p'));
    } else if m.kind == QUIT {
      EmitMemberships(p, Removal(p));
    } else if m.kind == FINISH_FRAME {
      OtherPaired(p, ReceivedFrameFinished(p.streamId));
    } else if m.kind == PIXELSTREAM {
      OtherPaired(p, ReceivedTile(p.streamId, ParseTile(p, m.body)));
    } else if m.kind == SIZE_HINTS {
      OtherPaired(p, ReceivedSizeHints(p.streamId, m.body[..HINTS_SIZE]));
    } else if m.kind == DATA {
      OtherPaired(p, ReceivedData(p.streamId, m.body));
    }
  }

  lemma OtherPaired(p: Protocol, s: Signal)
    requires Paired(p) && !IsMembership(s)
    ensures Paired(Emit(p, s))
  {
    EmitMemberships(p, s);
  }

  lemma {:induction false} HandleAllPaired(ms: seq<Message>)
    ensures Paired(HandleAll(NEW_PROTOCOL, ms))
  {
    if ms != [] {
      HandleAllPaired(ms[..|ms| - 1]);
      HandlePaired(HandleAll(NEW_PROTOCOL, ms[..|ms| - 1]), ms[|ms| - 1]);
    }
  }

  /**
   * Whatever a client sends, valid or not, and even if it just disappears: by the time its worker is
   * destroyed, it has been added and then removed once, under the same name and in the same role, or
   * neither.
   */
  lemma AddedAndRemovedOnce(ms: seq<Message>)
    ensures var all := Memberships(Destroy(HandleAll(NEW_PROTOCOL, ms)).signals); all == [] || IsPair(all)
  {
    HandleAllPaired(ms);
    var p := HandleAll(NEW_PROTOCOL, ms);
    if Started(p) { EmitMemberships(p, Removal(p)); }
  }

  // ---------------------------------------------------------------------------------------
  // What a session reports
  // ---------------------------------------------------------------------------------------

  /** It can start a session. */
  predicate Opens(m: Message) {
    (m.kind == PIXELSTREAM_OPEN || m.kind == OBSERVER_OPEN) && m.uri != []
  }

  /** What a message of a running session should be reported as: its kind and the bytes that matter. */
  function Worth(m: Message): seq<(Word, seq<Byte>)>
    requires BodyFits(m)
  {
    if m.kind == PIXELSTREAM then [(PIXELSTREAM, m.body[PARAMETERS_SIZE..])]
    else if m.kind == FINISH_FRAME then [(FINISH_FRAME, [])]
    else if m.kind == SIZE_HINTS then [(SIZE_HINTS, m.body[..HINTS_SIZE])]
    else if m.kind == DATA then [(DATA, m.body)]
    else []
  }

  function AllWorth(ms: seq<Message>): seq<(Word, seq<Byte>)>
    requires forall m :: m in ms ==> BodyFits(m)
  {
    if ms == [] then [] else AllWorth(ms[..|ms| - 1]) + Worth(ms[|ms| - 1])
  }

  /** The signal reports such a thing for stream uri. */
  predicate Tells(s: Signal, uri: Uri, worth: (Word, seq<Byte>)) {
    match s
    case ReceivedTile(u, t) => u == uri && worth == (PIXELSTREAM, t.data)
    case ReceivedFrameFinished(u) => u == uri && worth == (FINISH_FRAME, [])
    case ReceivedSizeHints(u, hints) => u == uri && worth == (SIZE_HINTS, hints)
    case ReceivedData(u, data) => u == uri && worth == (DATA, data)
    case _ => false
  }

  ghost predicate AllTold(signals: seq<Signal>, uri: Uri, worth: seq<(Word, seq<Byte>)>) {
    |signals| == |worth| && forall k {:trigger signals[k]} {:trigger worth[k]} :: 0 <= k < |signals| ==> Tells(signals[k], uri, worth[k])
  }

  /** Nothing is reported, and nothing kept, of what comes before a session starts. */
  lemma {:induction false} SilentBefore(before: seq<Message>)
    requires forall m :: m in before ==> !Opens(m)
    ensures HandleAll(NEW_PROTOCOL, before) == NEW_PROTOCOL
  {
    if before != [] {
      SilentBefore(before[..|before| - 1]);
      assert before[|before| - 1] in before;
    }
  }

  /** A view or row order that is none of the valid ones changes nothing. */
  lemma BadStateIgnored(p: Protocol, m: Message)
    requires BodyFits(m) && Started(p)
    requires (m.kind == IMAGE_VIEW && m.body[0] > 2) || (m.kind == IMAGE_ROW_ORDER && FromLittleEndian(m.body[..4]) > 1)
    ensures Handle(p, m) == p
  {
  }

  /** How the parameters of a segment lie in a message: four words, the least significant byte first, and the format. */
  lemma ParametersLayout(t: Tile, k: nat)
    requires k < PARAMETERS_SIZE
    ensures var w := if k < 4 then t.x else if k < 8 then t.y else if k < 12 then t.width else t.height;
            ParametersBytes(t)[k] ==
            if k == 16 then t.format else if k > 16 then 0
            else if k % 4 == 0 then w % 256 else if k % 4 == 1 then w / 256 % 256
            else if k % 4 == 2 then w / 0x1_0000 % 256 else w / 0x100_0000
  {
    if k < 16 { WordAt(t, k / 4, k % 4); }
  }

  lemma WordAt(t: Tile, i: nat, j: nat)
    requires i < 4 && j < 4
    ensures ParametersBytes(t)[4 * i + j] ==
            LittleEndian(if i == 0 then t.x else if i == 1 then t.y else if i == 2 then t.width else t.height)[j]
  {
  }

  /**
   * From the message that starts it on, and as long as no QUIT comes, a session reports one addition and then
   * each tile, end of a frame, size hint and piece of data, in the order of their messages, and nothing else.
   */
  lemma {:induction false} SessionReports(before: seq<Message>, open: Message, during: seq<Message>)
    requires (forall m :: m in before ==> !Opens(m)) && Opens(open)
    requires forall m :: m in during ==> BodyFits(m) && m.kind != QUIT
    ensures var p := HandleAll(NEW_PROTOCOL, before + [open] + during);
            && p.streamId == open.uri && !p.ended && p.observer == (open.kind == OBSERVER_OPEN) && |p.signals| > 0
            && p.signals[0] == (if open.kind == OBSERVER_OPEN then AddObserver(open.uri) else AddStreamSource(open.uri))
            && AllTold(p.signals[1..], open.uri, AllWorth(during))
    decreases during
  {
    if during == [] {
      SilentBefore(before);
      HandleOne(NEW_PROTOCOL, before, open);
      assert before + [open] + [] == before + [open];
    } else {
      var rest, m := during[..|during| - 1], during[|during| - 1];
      SessionReports(before, open, rest);
      assert before + [open] + during == (before + [open] + rest) + [m];
      HandleOne(NEW_PROTOCOL, before + [open] + rest, m);
      ReportsOne(HandleAll(NEW_PROTOCOL, before + [open] + rest), m);
      MoreTold(HandleAll(NEW_PROTOCOL, before + [open] + rest).signals, HandleAll(NEW_PROTOCOL, before + [open] + during).signals,
               open.uri, AllWorth(rest), Worth(m));
    }
  }

  lemma ReportsOne(p: Protocol, m: Message)
    requires Started(p) && BodyFits(m) && m.kind != QUIT
    ensures var p' := Handle(p, m);
            && p'.streamId == p.streamId && p'.ended == p.ended && p'.observer == p.observer
            && p.signals <= p'.signals && AllTold(p'.signals[|p.signals|..], p.streamId, Worth(m))
  {
  }

  lemma MoreTold(signals: seq<Signal>, signals': seq<Signal>, uri: Uri,
                 worth: seq<(Word, seq<Byte>)>, more: seq<(Word, seq<Byte>)>)
    requires |signals| > 0 && signals <= signals'
    requires AllTold(signals[1..], uri, worth) && AllTold(signals'[|signals|..], uri, more)
    ensures AllTold(signals'[1..], uri, worth + more)
  {
    assert signals'[1..] == signals[1..] + signals'[|signals|..];
  }

  /** QUIT reports one removal, in the same role, and whatever comes after it nothing at all. */
  lemma {:induction false} SilentAfter(before: seq<Message>, open: Message, during: seq<Message>, quit: Message, after: seq<Message>)
    requires (forall m :: m in before ==> !Opens(m)) && Opens(open) && quit.kind == QUIT
    requires forall m :: m in during ==> BodyFits(m) && m.kind != QUIT
    ensures var p := HandleAll(NEW_PROTOCOL, before + [open] + during);
            var p' := HandleAll(NEW_PROTOCOL, before + [open] + during + [quit] + after);
            && p'.streamId == [] && p'.ended
            && p'.signals == p.signals + [if open.kind == OBSERVER_OPEN then RemoveObserver(open.uri) else RemoveStreamSource(open.uri)]
    decreases after
  {
    var session := before + [open] + during;
    if after == [] {
      SessionReports(before, open, during);
      HandleOne(NEW_PROTOCOL, session, quit);
      assert session + [quit] + [] == session + [quit];
    } else {
      var rest, m := after[..|after| - 1], after[|after| - 1];
      SilentAfter(before, open, during, quit, rest);
      assert session + [quit] + after == (session + [quit] + rest) + [m];
      HandleOne(NEW_PROTOCOL, session + [quit] + rest, m);
    }
  }

  // ---------------------------------------------------------------------------------------
  // Finding the messages
  // ---------------------------------------------------------------------------------------

  function Joined(chunks: seq<seq<Byte>>): seq<Byte> {
    if chunks == [] then [] else chunks[0] + Joined(chunks[1..])
  }

  ghost predicate AllFine(ms: seq<Message>) {
    forall m :: m in ms ==> Sendable(m) && BodyFits(m)
  }

  /** What a stream begins with, when it is a prefix of the bytes of ms. */
  lemma NextMessage(stream: seq<Byte>, ms: seq<Message>)
    requires AllFine(ms) && stream <= AllBytes(ms) && |stream| >= HEADER_SIZE
    ensures ms != [] && ms[0] in ms && AllFine(ms[1..])
    ensures ParseHeader(stream[..HEADER_SIZE]) == HeaderOf(ms[0])
    ensures CString(HeaderOf(ms[0]).uri) == Cut(ms[0].uri)
    ensures stream[HEADER_SIZE..] <= ms[0].body + AllBytes(ms[1..])
  {
    assert |AllBytes(ms)| >= HEADER_SIZE;
    assert ms != [];
    HeaderFirst(ms);
    var header := HeaderBytes(HeaderOf(ms[0]));
    assert stream == stream[..HEADER_SIZE] + stream[HEADER_SIZE..];
    SplitPrefix(stream[..HEADER_SIZE], stream[HEADER_SIZE..], header, ms[0].body + AllBytes(ms[1..]));
    HeaderRoundTrip(HeaderOf(ms[0]));
    UriRoundTrip(ms[0].uri);
  }

  lemma LongEnough(ms: seq<Message>)
    requires AllFine(ms)
    ensures ms != [] ==> |AllBytes(ms)| >= HEADER_SIZE
  {
    if ms != [] { HeaderFirst(ms); }
  }

  lemma HeaderFirst(ms: seq<Message>)
    requires AllFine(ms) && ms != []
    ensures AllFine(ms[1..]) && ms[0] in ms
    ensures |HeaderBytes(HeaderOf(ms[0]))| == HEADER_SIZE
    ensures AllBytes(ms) == HeaderBytes(HeaderOf(ms[0])) + (ms[0].body + AllBytes(ms[1..]))
  {
    forall m | m in ms[1..] ensures m in ms {}
    HeaderRoundTrip(HeaderOf(ms[0]));
    Regroup(HeaderBytes(HeaderOf(ms[0])), ms[0].body, AllBytes(ms[1..]));
  }

  lemma Regroup(a: seq<Byte>, b: seq<Byte>, c: seq<Byte>)
    ensures (a + b) + c == a + (b + c)
  {
  }

  lemma SplitPrefix(a: seq<Byte>, b: seq<Byte>, c: seq<Byte>, d: seq<Byte>)
    requires a + b <= c + d && |a| == |c|
    ensures a == c && b <= d
  {
    assert a == (a + b)[..|a|] == (c + d)[..|a|] == c;
    assert b == (a + b)[|a|..];
    assert forall k :: 0 <= k < |b| ==> b[k] == (c + d)[|c| + k] == d[k];
  }

  /** What is announced when a message cannot be received or handled. */
  function Failure(p: Protocol): seq<Notice> {
    [ConnectionError(p.streamId), ConnectionClosed]
  }

  datatype Choice = Deliver | Process | Disconnect

  /** Another message of those sent has been taken. */
  lemma OneHandled(sent: seq<Message>, handled: seq<Message>, m: Message)
    requires AllFine(sent) && |handled| < |sent| && handled == AllArrived(sent)[..|handled|]
    requires m == Arrived(sent[|handled|])
    ensures BodyFits(m) && handled + [m] == AllArrived(sent)[..|handled| + 1]
    ensures AllFine(sent[|handled| + 1..]) && sent[|handled|..][1..] == sent[|handled| + 1..]
    ensures HandleAll(NEW_PROTOCOL, handled + [m]) == Handle(HandleAll(NEW_PROTOCOL, handled), m)
  {
    assert sent[|handled|] in sent;
    assert m == AllArrived(sent)[|handled|];
    HandleOne(NEW_PROTOCOL, handled, m);
  }

  class ServerWorker {
    // the socket
    var buffer: seq<Byte>             // bytes that have arrived
    var arrivals: seq<seq<Byte>>      // the chunks that are still under way
    var connected: bool
    var wakeups: nat                  // queued calls of processMessages
    // the worker's own fields and its signals
    var protocol: Protocol
    var notices: seq<Notice>

    ghost const sent: seq<Message>    // all the client's messages
    ghost var handled: seq<Message>   // those that have been handled, as they arrived

    ghost function Incoming(): seq<Byte>
      reads this
    {
      buffer + Joined(arrivals)
    }

    ghost function Todo(): seq<Message>
      reads this
      requires |handled| <= |sent|
    {
      sent[|handled|..]
    }

    /** What has been handled is a prefix of what was sent; what is coming continues it, or breaks off. */
    ghost predicate Valid()
      reads this
    {
      && AllFine(sent) && |handled| <= |sent| && handled == AllArrived(sent)[..|handled|]
      && AllFine(Todo()) && Incoming() <= AllBytes(Todo())
      && protocol == HandleAll(NEW_PROTOCOL, handled)
    }

    /** Everything is still coming. */
    ghost predicate Whole()
      reads this
      requires Valid()
    {
      Incoming() == AllBytes(Todo())
    }

    /** ms: what the client sends; chunks: its bytes, or as many of them as it manages to send, split somehow. */
    constructor (ghost ms: seq<Message>, chunks: seq<seq<Byte>>)
      requires AllFine(ms) && Joined(chunks) <= AllBytes(ms)
      ensures Valid() && sent == ms && handled == [] && Incoming() == Joined(chunks)
      ensures connected && buffer == [] && wakeups == 0
    {
      buffer, arrivals, connected, wakeups := [], chunks, true, 0;
      protocol, notices := NEW_PROTOCOL, [];
      sent, handled := ms, [];
      new;
      assert Todo() == ms;
    }

    /** Some bytes arrive: readyRead queues a call. */
    method DeliverChunk()
      requires Valid() && arrivals != []
      modifies this
      ensures Valid() && Incoming() == old(Incoming()) && arrivals == old(arrivals)[1..] && wakeups == old(wakeups) + 1
      ensures handled == old(handled) && connected == old(connected)
    {
      assert buffer + (arrivals[0] + Joined(arrivals[1..])) == (buffer + arrivals[0]) + Joined(arrivals[1..]);
      buffer, arrivals, wakeups := buffer + arrivals[0], arrivals[1..], wakeups + 1;
    }

    method Read(n: nat) returns (data: seq<Byte>)
      modifies this`buffer
      ensures |data| <= n && data + buffer == old(buffer) && (|data| == n || buffer == [])
      ensures data + Incoming() == old(Incoming())
    {
      var k := if n < |buffer| then n else |buffer|;
      data := buffer[..k];
      buffer := buffer[k..];
      Regroup(data, buffer, Joined(arrivals));
      assert data + buffer == old(buffer);
    }

    /** Succeeds if more is coming; queues nothing, which is the less favourable assumption. */
    method WaitForReadyRead() returns (ok: bool)
      modifies this`buffer, this`arrivals
      ensures Incoming() == old(Incoming()) && ok == (old(arrivals) != [])
      ensures arrivals == if ok then old(arrivals)[1..] else old(arrivals)
      ensures !ok ==> buffer == old(buffer)
    {
      ok := arrivals != [];
      if ok {
        assert buffer + (arrivals[0] + Joined(arrivals[1..])) == (buffer + arrivals[0]) + Joined(arrivals[1..]);
        buffer, arrivals := buffer + arrivals[0], arrivals[1..];
      }
    }

    /** ok is false where the original throws: nothing more is coming. */
    method ReceiveMessageBody(size: nat) returns (ok: bool, data: seq<Byte>)
      modifies this`buffer, this`arrivals
      ensures |arrivals| <= |old(arrivals)|
      ensures ok ==> |data| == size && data + Incoming() == old(Incoming())
      ensures !ok ==> |old(Incoming())| < size && Incoming() == []
    {
      ok, data := true, [];
      if size > 0 {
        data := Read(size);
        while |data| < size
          invariant |data| <= size && data + Incoming() == old(Incoming()) && |arrivals| <= |old(arrivals)|
          invariant |data| == size || buffer == []
          decreases |arrivals|
        {
          var more := WaitForReadyRead();
          if !more {
            assert Joined(arrivals) == [];
            return false, data;
          }
          var rest := Read(size - |data|);
          Regroup(data, rest, Incoming());
          data := data + rest;
        }
      }
    }

    /** behind: the memory behind the body. */
    method HandleMessage(message: Message, behind: seq<Byte>) returns (ok: bool)
      requires |behind| >= HINTS_SIZE
      modifies this`protocol
      ensures ok == !IsError(old(protocol), message)
      ensures ok == if message.kind == PIXELSTREAM_OPEN || message.kind == OBSERVER_OPEN
                    then old(protocol).streamId == [] && message.uri != [] && !old(protocol).ended
                    else old(protocol).streamId != []
      ensures protocol == if ok then Accept(old(protocol), AsRead(message, behind)) else old(protocol)
    {
      var m := AsRead(message, behind);
      var starts := m.kind == PIXELSTREAM_OPEN || m.kind == OBSERVER_OPEN;
      if protocol.streamId == [] && !starts { return false; }
      if starts {
        if protocol.streamId != [] || m.uri == [] || protocol.ended { return false; }
        protocol := protocol.(streamId := m.uri, observer := m.kind == OBSERVER_OPEN);
        protocol := Emit(protocol, if protocol.observer then AddObserver(m.uri) else AddStreamSource(m.uri));
      } else if m.kind == QUIT {
        protocol := Emit(protocol, Removal(protocol));
        protocol := protocol.(streamId := [], ended := true);
      } else if m.kind == FINISH_FRAME {
        protocol := Emit(protocol, ReceivedFrameFinished(protocol.streamId));
      } else if m.kind == PIXELSTREAM {
        protocol := Emit(protocol, ReceivedTile(protocol.streamId, ParseTile(protocol, m.body)));
      } else if m.kind == IMAGE_VIEW {
        protocol := protocol.(view := NewView(protocol.view, m.body[0]));
      } else if m.kind == IMAGE_ROW_ORDER {
        protocol := protocol.(rowOrder := NewOrder(protocol.rowOrder, FromLittleEndian(m.body[..4])));
      } else if m.kind == IMAGE_CHANNEL {
        protocol := protocol.(channel := m.body[0]);
      } else if m.kind == SIZE_HINTS {
        protocol := Emit(protocol, ReceivedSizeHints(protocol.streamId, m.body[..HINTS_SIZE]));
      } else if m.kind == DATA {
        protocol := Emit(protocol, ReceivedData(protocol.streamId, m.body));
      }
      ok := true;
    }

    /** receiveMessageHeader and receiveMessageBody; ok is false where the latter throws. */
    method TakeMessage() returns (ok: bool, m: Message)
      requires Valid() && |buffer| >= HEADER_SIZE
      modifies this`buffer, this`arrivals
      ensures |arrivals| <= |old(arrivals)| && Todo() != []
      ensures ok ==> m == Arrived(Todo()[0]) && Incoming() <= AllBytes(Todo()[1..])
      ensures !ok ==> Incoming() == []
      ensures old(Whole()) ==> ok && Incoming() == AllBytes(Todo()[1..])
    {
      ghost var stream, todo := Incoming(), Todo();
      NextMessage(stream, todo);
      var header := TakeHeader();
      var body;
      ok, body := ReceiveMessageBody(header.size);
      m := Message(header.kind, CString(header.uri), body);
      if ok {
        Taken(stream, body, Incoming(), todo);
      } else {
        CutShort(stream, todo);
      }
    }

    method TakeHeader() returns (header: Header)
      requires |buffer| >= HEADER_SIZE
      modifies this`buffer
      ensures |old(Incoming())| >= HEADER_SIZE
      ensures header == ParseHeader(old(Incoming())[..HEADER_SIZE]) && Incoming() == old(Incoming())[HEADER_SIZE..]
    {
      ghost var stream := Incoming();
      assert stream[..HEADER_SIZE] == buffer[..HEADER_SIZE];
      header := ParseHeader(buffer[..HEADER_SIZE]);
      buffer := buffer[HEADER_SIZE..];
      assert Incoming() == stream[HEADER_SIZE..];
    }

    /** One message is handled as it was sent, or the stream ends in the middle of it. */
    method ReceiveMessage()
      requires Valid() && |buffer| >= HEADER_SIZE
      modifies this`buffer, this`arrivals, this`protocol, this`notices, this`handled
      ensures Valid() && |arrivals| <= |old(arrivals)|
      ensures |handled| == |old(handled)| + 1 || (handled == old(handled) && Incoming() == [])
      ensures old(Whole()) ==> Whole() && |handled| == |old(handled)| + 1
      ensures notices == old(notices) +
                if handled == old(handled) || IsError(old(protocol), handled[|handled| - 1]) then Failure(old(protocol)) else []
    {
      var ok, m := TakeMessage();
      if !ok {
        notices := notices + [ConnectionError(protocol.streamId), ConnectionClosed];
        return;
      }
      OneHandled(sent, handled, m);
      HandleNext(m);
    }

    method HandleNext(m: Message)
      requires BodyFits(m)
      modifies this`protocol, this`notices, this`handled
      ensures handled == old(handled) + [m] && protocol == Handle(old(protocol), m)
      ensures notices == old(notices) + if IsError(old(protocol), m) then Failure(old(protocol)) else []
    {
      var behind: seq<Byte> :| |behind| == HINTS_SIZE by { assert |Zeros(HINTS_SIZE)| == HINTS_SIZE; }
      var ok := HandleMessage(m, behind);
      if !ok {
        notices := notices + [ConnectionError(protocol.streamId), ConnectionClosed];
      }
      handled := handled + [m];
    }

    /** All messages a closed socket still holds; then the end is announced. */
    method DrainMessages()
      requires Valid()
      modifies this`buffer, this`arrivals, this`protocol, this`notices, this`handled
      ensures Valid() && |arrivals| <= |old(arrivals)| && |handled| >= |old(handled)| && |buffer| < HEADER_SIZE
      ensures old(Whole()) ==> Whole()
    {
      while |buffer| >= HEADER_SIZE
        invariant Valid() && |arrivals| <= |old(arrivals)| && |handled| >= |old(handled)| && (old(Whole()) ==> Whole())
        decreases |sent| - |handled|, |buffer|
      {
        ReceiveMessage();
      }
      notices := notices + [ConnectionClosed];
    }

    /** One turn of the event loop. */
    method ProcessMessages()
      requires Valid() && wakeups > 0
      modifies this
      ensures Valid() && connected == old(connected) && |handled| >= |old(handled)| && |arrivals| <= |old(arrivals)|
      ensures wakeups + 2 * |old(handled)| < old(wakeups) + 2 * |handled|
      ensures old(Whole()) ==> Whole()
      ensures connected && |buffer| >= HEADER_SIZE ==> wakeups > 0
      ensures !connected ==> |buffer| < HEADER_SIZE
    {
      wakeups := wakeups - 1;
      if |buffer| >= HEADER_SIZE {
        ReceiveMessage();
      }
      if !connected {
        DrainMessages();
      } else if |buffer| >= HEADER_SIZE {
        wakeups := wakeups + 1;
      }
    }

    /** The connection ends; what is under way is lost, what has arrived stays. */
    method Break()
      requires Valid()
      modifies this
      ensures Valid() && !connected && arrivals == [] && handled == old(handled) && buffer == old(buffer)
      ensures wakeups == old(wakeups)
    {
      connected, arrivals := false, [];
      assert buffer <= old(Incoming());
      assert Incoming() == buffer;
    }

    /** While the connection lasts, a message that has arrived has a turn queued for it. */
    ghost predicate Awake()
      reads this
    {
      connected && |buffer| >= HEADER_SIZE ==> wakeups > 0
    }

    method Play(choice: Choice)
      requires Valid() && Awake()
      modifies this
      ensures Valid() && Awake()
      ensures choice != Disconnect ==> connected == old(connected) && (old(Whole()) ==> Whole())
    {
      match choice {
        case Deliver => if arrivals != [] { DeliverChunk(); }
        case Process => if wakeups > 0 { ProcessMessages(); }
        case Disconnect => Break();
      }
    }

    /** Whatever is under way arrives, and whatever is queued gets its turn. */
    method Settle()
      requires Valid() && Awake()
      modifies this
      ensures Valid() && Awake() && connected == old(connected) && (old(Whole()) ==> Whole())
      ensures connected ==> arrivals == [] && wakeups == 0
    {
      while connected && (arrivals != [] || wakeups > 0)
        invariant Valid() && Awake() && connected == old(connected) && (old(Whole()) ==> Whole())
        decreases 2 * (|sent| - |handled|) + 2 * |arrivals| + wakeups
      {
        if wakeups > 0 { ProcessMessages(); } else { DeliverChunk(); }
      }
    }

    lemma NothingLeft()
      requires Valid() && Awake() && Whole() && connected && arrivals == [] && wakeups == 0
      ensures handled == AllArrived(sent)
    {
      assert buffer == Incoming() == AllBytes(Todo());
      LongEnough(Todo());
      assert AllArrived(sent)[..|handled|] == AllArrived(sent);
    }

    /**
     * Any order of deliveries and turns, then what is left of both. Whatever the split, the messages
     * handled are a prefix of those sent, and all of them if all bytes were sent and the connection lasted.
     */
    method Run(choices: seq<Choice>)
      requires Valid() && connected && |buffer| < HEADER_SIZE && handled == []
      modifies this
      ensures Valid() && handled <= AllArrived(sent)
      ensures old(Whole()) && Disconnect !in choices ==> handled == AllArrived(sent)
    {
      var k := 0;
      while k < |choices|
        invariant k <= |choices| && Valid() && Awake()
        invariant Disconnect !in choices ==> connected && (old(Whole()) ==> Whole())
      {
        Play(choices[k]);
        k := k + 1;
      }
      Settle();
      if old(Whole()) && Disconnect !in choices { NothingLeft(); }
    }
  }

  /** A stream that ends before the first body does is not the whole one. */
  lemma CutShort(stream: seq<Byte>, todo: seq<Message>)
    requires AllFine(todo) && todo != [] && |stream| >= HEADER_SIZE
    requires |stream[HEADER_SIZE..]| < |todo[0].body|
    ensures stream != AllBytes(todo)
  {
    HeaderFirst(todo);
  }

  /** After a whole body has been read, the next message begins. */
  lemma Taken(stream: seq<Byte>, body: seq<Byte>, rest: seq<Byte>, todo: seq<Message>)
    requires AllFine(todo) && todo != [] && |stream| >= HEADER_SIZE && stream <= AllBytes(todo)
    requires stream[HEADER_SIZE..] == body + rest && |body| == |todo[0].body|
    requires stream[HEADER_SIZE..] <= todo[0].body + AllBytes(todo[1..])
    ensures body == todo[0].body && rest <= AllBytes(todo[1..])
    ensures stream == AllBytes(todo) ==> rest == AllBytes(todo[1..])
  {
    SplitPrefix(body, rest, todo[0].body, AllBytes(todo[1..]));
    if stream == AllBytes(todo) {
      HeaderFirst(todo);
      assert AllBytes(todo)[HEADER_SIZE..] == todo[0].body + AllBytes(todo[1..]);
      assert |rest| == |AllBytes(todo[1..])|;
    }
  }
}
