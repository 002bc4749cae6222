/** What the dispatcher refuses, and how it says so (deflect/server/FrameDispatcher.cpp, addSource and processFrameFinished). */
module Refusals {
  import opened Common
  import R = ReceiveBuffers
  import opened D = FrameDispatchers

  predicate IsRefusal(signal: Signal) {
    signal.Rejected? || signal.Warning?
  }

  /** The stream has consumed frames of its present sources. */
  predicate Started(s: State, uri: Uri) {
    uri in s.streams && s.streams[uri].buffer.last > 0
  }

  /**
   * A source is refused exactly if it joins a stream that has consumed frames already; it is told so once, with a
   * warning, and nothing else happens. A source that is not refused is in.
   */
  lemma RefusedIff(s: State, op: Op)
    requires Valid(s)
    ensures var s', late := Apply(s, op), op.AddSource? && Started(s, op.uri);
            && |s.signals| <= |s'.signals|
            && ((exists k :: |s.signals| <= k < |s'.signals| && IsRefusal(s'.signals[k])) <==> late)
            && (late ==> s' == State(s.streams, s.signals + [Rejected(op.uri, op.source), Warning(op.uri)]))
            && (op.AddSource? && !late ==> op.uri in s'.streams && op.source in s'.streams[op.uri].buffer.sources)
  {
    if op.AddSource? { JoinRefused(s, op.uri, op.source); } else { OthersSayNothing(s, op); }
  }

  lemma JoinRefused(s: State, uri: Uri, i: nat)
    requires Valid(s)
    ensures var s' := Apply(s, AddSource(uri, i));
            if Started(s, uri)
            then s' == State(s.streams, s.signals + [Rejected(uri, i), Warning(uri)]) && IsRefusal(s'.signals[|s.signals|])
            else (s'.signals == s.signals || s'.signals == s.signals + [Opened(uri)])
                 && uri in s'.streams && i in s'.streams[uri].buffer.sources
  {
    if Started(s, uri) { assert s.streams[uri := s.streams[uri]] == s.streams; }
  }

  lemma OthersSayNothing(s: State, op: Op)
    requires Valid(s) && !op.AddSource?
    ensures var s' := Apply(s, op);
            s'.signals == s.signals || (|s'.signals| == |s.signals| + 1 && s.signals <= s'.signals && !IsRefusal(s'.signals[|s.signals|]))
  {
  }

  /** A source that is more than 150 frames ahead of the stream is told so with an error, and its finish is not counted. */
  lemma Overflow(s: State, uri: Uri, i: nat)
    requires Valid(s) && uri in s.streams && i in s.streams[uri].buffer.sources
    ensures |s.streams[uri].buffer.sources[i].queue| > 150 ==>
              Apply(s, FrameFinished(uri, i)) == State(s.streams, s.signals + [Error(uri)])
  {
  }
}
