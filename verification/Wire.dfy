/**
 * Messages as bytes (deflect/MessageHeader.cpp, the writing loop of deflect/Socket.cpp).
 *
 * A header is the type and the body's size as big-endian 32-bit words, and a URI in 64 bytes, cut to
 * 63 and ended by NUL. Structures are sent as they lie in memory; the words in them are little-endian.
 */
module Wire {
  import opened Common
  import opened Types

  const URI_LENGTH: nat := 64
  const HEADER_SIZE: nat := 72

  // ---------------------------------------------------------------------------------------
  // Words
  // ---------------------------------------------------------------------------------------

  function BigEndian(w: Word): (r: seq<Byte>)
    ensures |r| == 4
  {
    [w / 0x100_0000, w / 0x1_0000 % 256, w / 256 % 256, w % 256]
  }

  function FromBigEndian(b: seq<Byte>): Word
    requires |b| == 4
  {
    (b[0] as int) * 0x100_0000 + (b[1] as int) * 0x1_0000 + (b[2] as int) * 256 + b[3]
  }

  lemma BigEndianRoundTrip(w: Word)
    ensures FromBigEndian(BigEndian(w)) == w
  {
    Digits(w);
  }

  lemma Digits(w: Word)
    ensures w == w / 0x100_0000 * 0x100_0000 + w / 0x1_0000 % 256 * 0x1_0000 + w / 256 % 256 * 256 + w % 256
  {
    var a, b := w / 256, w / 0x1_0000;
    assert w == a * 256 + w % 256;
    assert a == b * 256 + a % 256;
    assert b == w / 0x100_0000 * 256 + b % 256;
  }

  function LittleEndian(w: Word): (r: seq<Byte>)
    ensures |r| == 4
  {
    [w % 256, w / 256 % 256, w / 0x1_0000 % 256, w / 0x100_0000]
  }

  function FromLittleEndian(b: seq<Byte>): Word
    requires |b| == 4
  {
    (b[3] as int) * 0x100_0000 + (b[2] as int) * 0x1_0000 + (b[1] as int) * 256 + b[0]
  }

  lemma LittleEndianRoundTrip(w: Word)
    ensures FromLittleEndian(LittleEndian(w)) == w
  {
    Digits(w);
  }

  // ---------------------------------------------------------------------------------------
  // Headers
  // ---------------------------------------------------------------------------------------

  /** kind: the message type; size: of the body; uri: all 64 bytes. */
  datatype Header = Header(kind: Word, size: Word, uri: seq<Byte>)

  function Zeros(n: nat): (r: seq<Byte>)
    ensures |r| == n
  {
    seq(n, _ => 0)
  }

  /** What is left of a URI in a header. */
  function Cut(uri: seq<Byte>): seq<Byte> {
    if |uri| <= URI_LENGTH - 1 then uri else uri[..URI_LENGTH - 1]
  }

  function Padded(uri: seq<Byte>): (r: seq<Byte>)
    ensures |r| == URI_LENGTH
  {
    Cut(uri) + Zeros(URI_LENGTH - |Cut(uri)|)
  }

  /** A character buffer read as a string: up to the first NUL. */
  function CString(b: seq<Byte>): seq<Byte> {
    if b == [] || b[0] == 0 then [] else [b[0]] + CString(b[1..])
  }

  function HeaderBytes(h: Header): seq<Byte> {
    BigEndian(h.kind) + BigEndian(h.size) + h.uri
  }

  function ParseHeader(b: seq<Byte>): Header
    requires |b| == HEADER_SIZE
  {
    Header(FromBigEndian(b[..4]), FromBigEndian(b[4..8]), b[8..])
  }

  lemma HeaderRoundTrip(h: Header)
    requires |h.uri| == URI_LENGTH
    ensures |HeaderBytes(h)| == HEADER_SIZE && ParseHeader(HeaderBytes(h)) == h
  {
    var b := HeaderBytes(h);
    assert b[..4] == BigEndian(h.kind) && b[4..8] == BigEndian(h.size) && b[8..] == h.uri;
    BigEndianRoundTrip(h.kind);
    BigEndianRoundTrip(h.size);
  }

  /** Byte by byte: type and size with the most significant byte first, then the URI buffer. */
  lemma HeaderLayout(h: Header, k: nat)
    requires |h.uri| == URI_LENGTH && k < HEADER_SIZE
    ensures |HeaderBytes(h)| == HEADER_SIZE
    ensures HeaderBytes(h)[k] ==
            (if k == 0 then h.kind / 0x100_0000 else if k == 1 then h.kind / 0x1_0000 % 256
             else if k == 2 then h.kind / 256 % 256 else if k == 3 then h.kind % 256
             else if k == 4 then h.size / 0x100_0000 else if k == 5 then h.size / 0x1_0000 % 256
             else if k == 6 then h.size / 256 % 256 else if k == 7 then h.size % 256 else h.uri[k - 8])
  {
  }

  /** A URI without NUL arrives cut to 63 bytes; one that is shorter arrives whole. */
  lemma UriRoundTrip(uri: seq<Byte>)
    requires 0 !in uri
    ensures CString(Padded(uri)) == Cut(uri) == if |uri| <= 63 then uri else uri[..63]
  {
    assert 0 !in Cut(uri);
    CStringPadded(Cut(uri), URI_LENGTH - |Cut(uri)|);
  }

  lemma {:induction false} CStringPadded(s: seq<Byte>, n: nat)
    requires 0 !in s && n > 0
    ensures CString(s + Zeros(n)) == s
  {
    if s == [] {
      assert s + Zeros(n) == Zeros(n);
    } else {
      assert s[0] != 0;
      assert (s + Zeros(n))[1..] == s[1..] + Zeros(n);
      forall x | x in s[1..] ensures x != 0 { assert x in s; }
      CStringPadded(s[1..], n);
    }
  }

  class MessageHeader {
    var kind: Word
    var size: Word
    const uri: array<Byte>

    constructor (kind: Word, size: Word, streamUri: seq<Byte>)
      ensures this.kind == kind && this.size == size && uri.Length == URI_LENGTH
      ensures uri[..] == Padded(streamUri)
      ensures forall k :: 0 <= k < 64 ==> uri[k] == if k < |streamUri| && k < 63 then streamUri[k] else 0
    {
      this.kind, this.size := kind, size;
      uri := new Byte[URI_LENGTH](_ => 0);
      new;
      var len := if |streamUri| < URI_LENGTH - 1 then |streamUri| else URI_LENGTH - 1;
      for i := 0 to len
        modifies uri
        invariant uri[..i] == streamUri[..i]
        invariant forall k :: i <= k < URI_LENGTH ==> uri[k] == 0
      {
        uri[i] := streamUri[i];
      }
      uri[len] := 0;
      assert uri[..] == uri[..len] + uri[len..];
    }

    /** operator<< */
    method Serialize() returns (out: seq<Byte>)
      requires uri.Length == URI_LENGTH
      ensures out == HeaderBytes(Header(kind, size, uri[..]))
    {
      out := BigEndian(kind) + BigEndian(size);
      out := out + uri[..];
    }
  }

  // ---------------------------------------------------------------------------------------
  // Messages
  // ---------------------------------------------------------------------------------------

  /** A message as its sender means it, or as its receiver sees it. */
  datatype Message = Message(kind: Word, uri: seq<Byte>, body: seq<Byte>)

  /** Sizes are handed on as int. */
  predicate Sendable(m: Message) {
    |m.body| < 0x8000_0000 && 0 !in m.uri
  }

  function HeaderOf(m: Message): Header
    requires Sendable(m)
  {
    Header(m.kind, |m.body|, Padded(m.uri))
  }

  function MessageBytes(m: Message): seq<Byte>
    requires Sendable(m)
  {
    HeaderBytes(HeaderOf(m)) + m.body
  }

  /** What arrives of it. */
  function Arrived(m: Message): Message {
    m.(uri := Cut(m.uri))
  }

  function AllBytes(ms: seq<Message>): seq<Byte>
    requires forall m :: m in ms ==> Sendable(m)
  {
    if ms == [] then [] else MessageBytes(ms[0]) + AllBytes(ms[1..])
  }

  function AllArrived(ms: seq<Message>): (r: seq<Message>)
    ensures |r| == |ms|
  {
    seq(|ms|, k requires 0 <= k < |ms| => Arrived(ms[k]))
  }

  lemma MessageSize(m: Message)
    requires Sendable(m)
    ensures |MessageBytes(m)| == HEADER_SIZE + |m.body|
    ensures MessageBytes(m)[..HEADER_SIZE] == HeaderBytes(HeaderOf(m)) && MessageBytes(m)[HEADER_SIZE..] == m.body
    ensures ParseHeader(MessageBytes(m)[..HEADER_SIZE]) == HeaderOf(m)
    ensures CString(HeaderOf(m).uri) == Cut(m.uri)
  {
    HeaderRoundTrip(HeaderOf(m));
    UriRoundTrip(m.uri);
  }

  // ---------------------------------------------------------------------------------------
  // Writing
  // ---------------------------------------------------------------------------------------

  lemma FurtherPrefix(before: seq<Byte>, message: seq<Byte>, sent: nat, n: nat)
    requires sent + n <= |message|
    ensures (before + message[..sent]) + message[sent..][..n] == before + message[..sent + n]
  {
    assert message[..sent] + message[sent..][..n] == message[..sent + n];
  }

  function Sum(ns: seq<nat>): nat {
    if ns == [] then 0 else Sum(ns[..|ns| - 1]) + ns[|ns| - 1]
  }

  lemma SumOneMore(ns: seq<nat>, k: nat)
    requires k < |ns|
    ensures Sum(ns[..k + 1]) == Sum(ns[..k]) + ns[k] && Sum(ns[..0]) == 0
  {
    assert ns[..k + 1][..k] == ns[..k];
  }

  lemma {:induction false} SumGrows(ns: seq<nat>, k: nat)
    requires k <= |ns|
    ensures Sum(ns[..k]) <= Sum(ns)
  {
    if k == |ns| {
      assert ns[..k] == ns;
    } else {
      assert ns[..|ns| - 1][..k] == ns[..k];
      SumGrows(ns[..|ns| - 1], k);
    }
  }

  class Socket {
    var written: seq<Byte>     // what the socket has taken, in order

    /**
     * accepts: how many bytes each call of the socket's write takes; after those, the connection is gone. As much
     * of the message is written as all calls together take, and allSent tells whether that is all of it.
     */
    method Write(message: seq<Byte>, accepts: seq<nat>) returns (allSent: bool)
      modifies this
      ensures allSent <==> |message| <= Sum(accepts)
      ensures written == old(written) + if |message| <= Sum(accepts) then message else message[..Sum(accepts)]
    {
      allSent := true;
      if message != [] {
        var turn, sent := 0, 0;
        if turn < |accepts| {
          sent := Take(message, accepts[turn]);
          SumOneMore(accepts, turn);
          turn := 1;
        }
        while sent < |message| && turn < |accepts|
          invariant turn <= |accepts| && 0 <= sent <= |message| && written == old(written) + message[..sent]
          invariant sent == if |message| <= Sum(accepts[..turn]) then |message| else Sum(accepts[..turn])
          decreases |accepts| - turn
        {
          ghost var before := written;
          var n := Take(message[sent..], accepts[turn]);
          FurtherPrefix(old(written), message, sent, n);
          assert written == before + message[sent..][..n];
          SumOneMore(accepts, turn);
          sent, turn := sent + n, turn + 1;
        }
        allSent := sent == |message|;
        SumGrows(accepts, turn);
        assert turn == |accepts| ==> accepts[..turn] == accepts;
        assert written == old(written) + message[..sent];
        assert message[..|message|] == message;
      } else {
        assert written == old(written) + message;
      }
    }

    method Take(data: seq<Byte>, most: nat) returns (n: nat)
      modifies this
      ensures n == (if most < |data| then most else |data|) && written == old(written) + data[..n]
    {
      n := if most < |data| then most else |data|;
      written := written + data[..n];
    }
  }
}
