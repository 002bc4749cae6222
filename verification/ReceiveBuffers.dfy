/**
 * Alignment of the frames of several sources (deflect/server/SourceBuffer.cpp,
 * deflect/server/ReceiveBuffer.cpp).
 *
 * Classes SourceBuffer and ReceiveBuffer are the program; Source and Buffer are their values, with a
 * function per operation. Frame indices are 32-bit words that wrap.
 */
module ReceiveBuffers {
  import opened Common
  import opened Types
  import opened Ascending

  type Tiles = seq<Tile>

  const MAX_QUEUE_SIZE: nat := 150

  // ---------------------------------------------------------------------------------------
  // One source
  // ---------------------------------------------------------------------------------------

  /** The frames of a source that are not consumed; back: the index of the open one. */
  datatype Source = Source(queue: seq<Tiles>, back: nat)

  const NEW_SOURCE: Source := Source([[]], 0)

  function Pushed(s: Source): Source {
    Source(s.queue + [[]], U32(s.back + 1))
  }

  function Popped(s: Source): Source {
    if s.queue == [] then s else s.(queue := s.queue[1..])
  }

  function Inserted(s: Source, t: Tile): Source {
    if s.queue == [] then s else s.(queue := s.queue[..|s.queue| - 1] + [s.queue[|s.queue| - 1] + [t]])
  }

  class SourceBuffer {
    var tiles: seq<Tiles>
    var backFrameIndex: nat

    ghost function View(): Source
      reads this
    {
      Source(tiles, backFrameIndex)
    }

    constructor ()
      ensures View() == NEW_SOURCE
    {
      tiles := [[]];
      backFrameIndex := 0;
    }

    method GetTiles() returns (front: Tiles)
      requires View().queue != []
      ensures front == View().queue[0]
    {
      front := tiles[0];
    }

    method Push()
      modifies this
      ensures View() == Pushed(old(View()))
    {
      tiles := tiles + [[]];
      backFrameIndex := U32(backFrameIndex + 1);
    }

    method Pop()
      requires View().queue != []
      modifies this
      ensures View() == Popped(old(View()))
    {
      tiles := tiles[1..];
    }

    method Insert(tile: Tile)
      requires View().queue != []
      modifies this
      ensures View() == Inserted(old(View()), tile)
    {
      var last := |tiles| - 1;
      tiles := tiles[last := tiles[last] + [tile]];
      assert tiles == old(tiles)[..last] + [old(tiles)[last] + [tile]];
    }
  }

  // ---------------------------------------------------------------------------------------
  // All sources of a stream
  // ---------------------------------------------------------------------------------------

  datatype Buffer = Buffer(last: nat, sources: map<nat, Source>, allowed: bool)

  const NEW_BUFFER: Buffer := Buffer(0, map[], false)

  /** None: the exception of the original. */
  function Add(b: Buffer, i: nat): Option<Buffer> {
    if b.last > 0 then None
    else if i in b.sources then Some(b)
    else Some(b.(sources := b.sources[i := NEW_SOURCE]))
  }

  function Remove(b: Buffer, i: nat): Buffer {
    var sources := b.sources - {i};
    b.(sources := sources, last := if sources == map[] then 0 else b.last)
  }

  function Insert(b: Buffer, i: nat, t: Tile): Buffer
    requires i in b.sources
  {
    b.(sources := b.sources[i := Inserted(b.sources[i], t)])
  }

  function Finish(b: Buffer, i: nat): Option<Buffer>
    requires i in b.sources
  {
    if |b.sources[i].queue| > MAX_QUEUE_SIZE then None
    else Some(b.(sources := b.sources[i := Pushed(b.sources[i])]))
  }

  predicate IsAhead(b: Buffer, i: nat)
    requires i in b.sources
  {
    b.sources[i].back > b.last
  }

  predicate HasComplete(b: Buffer) {
    b.sources != map[] && forall i {:trigger IsAhead(b, i)} | i in b.sources :: IsAhead(b, i)
  }

  /** What source i contributes to the next frame. */
  function Part(b: Buffer, i: nat): Tiles {
    if i in b.sources && IsAhead(b, i) && b.sources[i].queue != [] then b.sources[i].queue[0] else []
  }

  function Gathered(b: Buffer, ids: seq<nat>): Tiles {
    if ids == [] then [] else Gathered(b, ids[..|ids| - 1]) + Part(b, ids[|ids| - 1])
  }

  /** The next frame, in ascending order of the sources. */
  function FrontFrame(b: Buffer): Tiles {
    Gathered(b, Sorted(b.sources.Keys))
  }

  function Pop(b: Buffer): Buffer {
    Buffer(U32(b.last + 1),
           map i | i in b.sources :: if IsAhead(b, i) then Popped(b.sources[i]) else b.sources[i],
           b.allowed)
  }

  /** Enough for every operation to be safe, wrap-around included: no queue runs empty. */
  ghost predicate Safe(b: Buffer) {
    && b.last < WORD32
    && forall i {:trigger b.sources[i]} | i in b.sources :: SafeSource(b.sources[i], b.last)
  }

  ghost predicate SafeSource(s: Source, last: nat) {
    s.back < WORD32 && 1 <= |s.queue| && s.back - last + 1 <= |s.queue|
  }

  class ReceiveBuffer {
    var lastFrameComplete: nat
    var sourceBuffers: map<nat, SourceBuffer>
    var allowedToSend: bool

    ghost predicate Valid()
      reads this, sourceBuffers.Values
    {
      Distinct() && Safe(View())
    }

    /** No two sources share a buffer. */
    ghost predicate Distinct()
      reads this`sourceBuffers
    {
      forall i, j :: i in sourceBuffers && j in sourceBuffers && i != j ==> sourceBuffers[i] != sourceBuffers[j]
    }

    ghost function View(): Buffer
      reads this, sourceBuffers.Values
    {
      Buffer(lastFrameComplete, Sources(), allowedToSend)
    }

    ghost function Sources(): map<nat, Source>
      reads this`sourceBuffers, sourceBuffers.Values
    {
      map i | i in sourceBuffers :: sourceBuffers[i].View()
    }

    /** The objects it consists of. */
    ghost function Repr(): set<object>
      reads this
    {
      {this} + sourceBuffers.Values
    }

    constructor ()
      ensures Valid() && View() == NEW_BUFFER && sourceBuffers == map[]
    {
      lastFrameComplete := 0;
      sourceBuffers := map[];
      allowedToSend := false;
    }

    /** ok is false where the original throws. */
    method AddSource(i: nat) returns (ok: bool)
      requires Valid()
      modifies this
      ensures Valid() && fresh(sourceBuffers.Values - old(sourceBuffers.Values))
      ensures ok == Add(old(View()), i).Some?
      ensures View() == if ok then Add(old(View()), i).value else old(View())
    {
      if lastFrameComplete > 0 { return false; }
      ok := true;
      if i !in sourceBuffers {
        var source := new SourceBuffer();
        sourceBuffers := sourceBuffers[i := source];
        assert View() == Add(old(View()), i).value;
      }
    }

    method RemoveSource(i: nat)
      requires Valid()
      modifies this
      ensures Valid() && sourceBuffers.Values <= old(sourceBuffers.Values)
      ensures View() == Remove(old(View()), i)
    {
      ghost var was := View();
      sourceBuffers := sourceBuffers - {i};
      assert View().sources == was.sources - {i};
      assert sourceBuffers.Keys == View().sources.Keys;
      SameEmptiness(sourceBuffers, View().sources);
      if sourceBuffers == map[] {
        lastFrameComplete := 0;
      }
      SafeRemove(was, i);
    }

    method GetSourceCount() returns (n: nat)
      requires Valid()
      ensures n == |View().sources|
    {
      assert View().sources.Keys == sourceBuffers.Keys;
      n := |sourceBuffers|;
    }

    method InsertTile(tile: Tile, i: nat)
      requires Valid() && i in sourceBuffers
      modifies sourceBuffers[i]
      ensures Valid() && View() == Insert(old(View()), i, tile)
    {
      assert View().sources[i] == sourceBuffers[i].View();
      sourceBuffers[i].Insert(tile);
      assert forall k | k in sourceBuffers && k != i :: sourceBuffers[k].View() == old(sourceBuffers[k].View());
      assert View().sources == Insert(old(View()), i, tile).sources;
      SafeInsert(old(View()), i, tile);
    }

    method FinishFrameForSource(i: nat) returns (ok: bool)
      requires Valid() && i in sourceBuffers
      modifies sourceBuffers[i]
      ensures Valid() && ok == Finish(old(View()), i).Some?
      ensures View() == if ok then Finish(old(View()), i).value else old(View())
    {
      assert View().sources[i] == sourceBuffers[i].View();
      if |sourceBuffers[i].tiles| > MAX_QUEUE_SIZE { return false; }
      ok := true;
      sourceBuffers[i].Push();
      assert forall k | k in sourceBuffers && k != i :: sourceBuffers[k].View() == old(sourceBuffers[k].View());
      assert View().sources == Finish(old(View()), i).value.sources;
      SafeFinish(old(View()), i);
    }

    method HasCompleteFrame() returns (complete: bool)
      requires Valid()
      ensures complete == HasComplete(View())
    {
      var ids := Sorted(sourceBuffers.Keys);
      SortedKeys(sourceBuffers.Keys);
      for k := 0 to |ids|
        invariant forall j {:trigger ids[j]} :: 0 <= j < k ==> ids[j] in View().sources && IsAhead(View(), ids[j])
      {
        assert ids[k] in ids;
        assert View().sources[ids[k]] == sourceBuffers[ids[k]].View();
        if sourceBuffers[ids[k]].backFrameIndex <= lastFrameComplete {
          assert !IsAhead(View(), ids[k]);
          return false;
        }
      }
      forall i | i in View().sources ensures IsAhead(View(), i) {
        assert i in ids;
        var j :| 0 <= j < |ids| && ids[j] == i;
      }
      complete := |ids| != 0;
      if |ids| == 0 {
        assert forall i :: i in View().sources ==> i in ids;
        assert View().sources == map[];
      } else {
        assert ids[0] in View().sources;
      }
    }

    method PopFrame() returns (frame: Tiles)
      requires Valid() && HasComplete(View())
      modifies this, sourceBuffers.Values
      ensures Valid() && sourceBuffers == old(sourceBuffers)
      ensures frame == FrontFrame(old(View())) && View() == Pop(old(View()))
    {
      ghost var b := Popping();
      frame := PopSources();
      CountFrame(b);
    }

    method CountFrame(ghost b: Buffer)
      requires Distinct() && Safe(b) && b == Buffer(U32(lastFrameComplete + 1), Sources(), allowedToSend)
      modifies this`lastFrameComplete
      ensures Valid() && View() == b
    {
      lastFrameComplete := U32(lastFrameComplete + 1);
    }

    lemma Popping() returns (b: Buffer)
      requires Valid() && HasComplete(View())
      ensures b == Pop(View()) && Safe(b) && b.last == U32(lastFrameComplete + 1) && b.allowed == allowedToSend
    {
      b := Pop(View());
      SafePop(View());
    }

    /** With a complete frame, every source is ahead and has it queued. */
    lemma AheadInUse(b: Buffer)
      requires Valid() && b == View() && HasComplete(b)
      ensures b.sources.Keys == sourceBuffers.Keys && b.last == lastFrameComplete
      ensures forall i {:trigger sourceBuffers[i]} | i in sourceBuffers ::
                sourceBuffers[i].View() == b.sources[i] && IsAhead(b, i) && b.sources[i].queue != []
    {
      forall i | i in sourceBuffers
        ensures sourceBuffers[i].View() == b.sources[i] && IsAhead(b, i) && b.sources[i].queue != [] {
        assert SafeSource(b.sources[i], b.last);
      }
    }

    lemma PoppedView(was: Buffer)
      requires HasComplete(was) && was.sources.Keys == sourceBuffers.Keys
      requires forall i {:trigger sourceBuffers[i]} | i in sourceBuffers :: sourceBuffers[i].View() == Popped(was.sources[i])
      ensures Sources() == Pop(was).sources
    {
      forall i | i in sourceBuffers ensures sourceBuffers[i].View() == Pop(was).sources[i] { assert IsAhead(was, i); }
    }

    /** popFrame's loop. */
    method PopSources() returns (frame: Tiles)
      requires Valid() && HasComplete(View())
      modifies sourceBuffers.Values
      ensures frame == FrontFrame(old(View())) && Sources() == Pop(old(View())).sources
    {
      ghost var was := View();
      AheadInUse(was);
      frame := PopEach(was);
      PoppedView(was);
    }

    method PopEach(ghost was: Buffer) returns (frame: Tiles)
      requires Distinct() && was.sources.Keys == sourceBuffers.Keys && was.last == lastFrameComplete
      requires forall i {:trigger sourceBuffers[i]} | i in sourceBuffers ::
                 sourceBuffers[i].View() == was.sources[i] && IsAhead(was, i) && was.sources[i].queue != []
      modifies sourceBuffers.Values
      ensures frame == FrontFrame(was)
      ensures forall i {:trigger sourceBuffers[i]} | i in sourceBuffers :: sourceBuffers[i].View() == Popped(was.sources[i])
    {
      SortedKeys(sourceBuffers.Keys);
      var ids := Sorted(sourceBuffers.Keys);
      forall j | 0 <= j < |ids| ensures ids[j] in sourceBuffers { assert ids[j] in ids; }
      var all := sourceBuffers;
      var buffers := seq(|ids|, j requires 0 <= j < |ids| && ids[j] in all => all[ids[j]]);
      assert forall j :: 0 <= j < |buffers| ==> buffers[j] in sourceBuffers.Values;
      assert forall j, k :: 0 <= j < k < |buffers| ==> ids[j] != ids[k] && buffers[j] != buffers[k];
      frame := PopAhead(buffers, lastFrameComplete, was, ids);
      forall i | i in sourceBuffers ensures sourceBuffers[i].View() == Popped(was.sources[i]) {
        assert i in ids;
        var j :| 0 <= j < |ids| && ids[j] == i;
        assert buffers[j] == sourceBuffers[i];
      }
    }

    static method PopAhead(buffers: seq<SourceBuffer>, last: nat, ghost was: Buffer, ghost ids: seq<nat>) returns (frame: Tiles)
      requires |ids| == |buffers| && was.last == last
      requires forall j, k :: 0 <= j < k < |buffers| ==> buffers[j] != buffers[k]
      requires forall j {:trigger buffers[j]} :: 0 <= j < |buffers| ==>
                 ids[j] in was.sources && IsAhead(was, ids[j]) && was.sources[ids[j]].queue != []
                 && buffers[j].View() == was.sources[ids[j]]
      modifies buffers
      ensures frame == Gathered(was, ids)
      ensures forall j {:trigger buffers[j]} :: 0 <= j < |buffers| ==> buffers[j].View() == Popped(was.sources[ids[j]])
    {
      frame := [];
      for k := 0 to |buffers|
        invariant frame == Gathered(was, ids[..k])
        invariant forall j {:trigger buffers[j]} :: 0 <= j < k ==> buffers[j].View() == Popped(was.sources[ids[j]])
        invariant forall j {:trigger buffers[j]} :: k <= j < |buffers| ==> buffers[j].View() == was.sources[ids[j]]
      {
        assert buffers[k].View() == was.sources[ids[k]];
        if buffers[k].backFrameIndex > last {
          var tiles := buffers[k].GetTiles();
          frame := frame + tiles;
          buffers[k].Pop();
        }
        assert ids[..k + 1][..k] == ids[..k];
      }
      assert ids[..|ids|] == ids;
    }

    method SetAllowedToSend(enable: bool)
      requires Valid()
      modifies this`allowedToSend
      ensures Valid() && View() == old(View()).(allowed := enable)
    {
      allowedToSend := enable;
    }
  }

  lemma SameEmptiness<A, B>(m: map<nat, A>, n: map<nat, B>)
    requires m.Keys == n.Keys
    ensures m == map[] <==> n == map[]
  {
    assert m == map[] <==> m.Keys == {};
    assert n == map[] <==> n.Keys == {};
  }

  lemma SafeRemove(b: Buffer, i: nat)
    requires Safe(b)
    ensures Safe(Remove(b, i))
  {
    var b' := Remove(b, i);
    forall k | k in b'.sources ensures SafeSource(b'.sources[k], b'.last) { assert SafeSource(b.sources[k], b.last); }
  }

  lemma SafeInsert(b: Buffer, i: nat, t: Tile)
    requires Safe(b) && i in b.sources
    ensures Safe(Insert(b, i, t))
  {
    forall k | k in b.sources ensures SafeSource(Insert(b, i, t).sources[k], b.last) {
      assert SafeSource(b.sources[k], b.last);
    }
  }

  lemma SafeFinish(b: Buffer, i: nat)
    requires Safe(b) && i in b.sources && Finish(b, i).Some?
    ensures Safe(Finish(b, i).value)
  {
    forall k | k in b.sources ensures SafeSource(Finish(b, i).value.sources[k], b.last) {
      assert SafeSource(b.sources[k], b.last);
    }
  }

  /** A source that is ahead has two frames queued, so popping leaves the open one. */
  lemma SafePop(b: Buffer)
    requires Safe(b) && HasComplete(b)
    ensures Safe(Pop(b)) && Pop(b).last == b.last + 1
  {
    var k :| k in b.sources;
    assert IsAhead(b, k) && SafeSource(b.sources[k], b.last);
    forall i | i in b.sources ensures SafeSource(Pop(b).sources[i], b.last + 1) {
      assert SafeSource(b.sources[i], b.last) && IsAhead(b, i);
    }
  }

  // ---------------------------------------------------------------------------------------
  // Full histories
  // ---------------------------------------------------------------------------------------

  /**
   * The reference: everything each source has sent since the stream last became empty, frame by frame
   * (the last one is open), and how many frames were taken out. Nothing is ever forgotten here.
   */
  datatype History = History(frames: map<nat, seq<Tiles>>, popped: nat)

  datatype Op =
    | AddSource(i: nat)
    | RemoveSource(i: nat)
    | InsertTile(i: nat, tile: Tile)
    | FinishFrame(i: nat)
    | PopFrame
    | Allow(enable: bool)

  /** What the callers guarantee: live sources only, and popFrame after hasCompleteFrame. */
  predicate Permitted(b: Buffer, op: Op) {
    match op
    case InsertTile(i, _) => i in b.sources
    case FinishFrame(i) => i in b.sources
    case PopFrame => HasComplete(b)
    case _ => true
  }

  function Apply(b: Buffer, op: Op): Buffer {
    match op
    case AddSource(i) => if Add(b, i).Some? then Add(b, i).value else b
    case RemoveSource(i) => Remove(b, i)
    case InsertTile(i, t) => if i in b.sources then Insert(b, i, t) else b
    case FinishFrame(i) => if i in b.sources && Finish(b, i).Some? then Finish(b, i).value else b
    case PopFrame => Pop(b)
    case Allow(enable) => b.(allowed := enable)
  }

  function Record(h: History, op: Op): History {
    match op
    case AddSource(i) => if h.popped > 0 || i in h.frames then h else h.(frames := h.frames[i := [[]]])
    case RemoveSource(i) =>
      var frames := h.frames - {i};
      History(frames, if frames == map[] then 0 else h.popped)
    case InsertTile(i, t) =>
      if i !in h.frames || h.frames[i] == [] then h
      else
        var f := h.frames[i];
        h.(frames := h.frames[i := f[..|f| - 1] + [f[|f| - 1] + [t]]])
    case FinishFrame(i) =>
      // refused while 150 closed frames are waiting
      if i !in h.frames || |h.frames[i]| > h.popped + MAX_QUEUE_SIZE then h
      else h.(frames := h.frames[i := h.frames[i] + [[]]])
    case PopFrame => h.(popped := h.popped + 1)
    case Allow(_) => h
  }

  /** Frame n of every source, in ascending order of the sources. */
  function FrameAt(h: History, n: nat, ids: seq<nat>): Tiles {
    if ids == [] then [] else
    var i := ids[|ids| - 1];
    FrameAt(h, n, ids[..|ids| - 1]) + if i in h.frames && n < |h.frames[i]| then h.frames[i][n] else []
  }

  /** The index of the open frame wraps when a source closes its frame 2^32 - 1. */
  ghost predicate SourceRefines(s: Source, frames: seq<Tiles>, popped: nat) {
    && popped < |frames| <= popped + MAX_QUEUE_SIZE + 1
    && s.back == (if |frames| <= WORD32 then |frames| - 1 else |frames| - 1 - WORD32)
    && s.queue == frames[popped..]
  }

  /** The bounded buffer is a window on the histories. */
  ghost predicate Refines(b: Buffer, h: History) {
    && b.last == h.popped < WORD32 && b.sources.Keys == h.frames.Keys
    && (b.sources == map[] ==> b.last == 0)
    && forall i {:trigger b.sources[i]} {:trigger h.frames[i]} | i in b.sources ::
         SourceRefines(b.sources[i], h.frames[i], h.popped)
  }

  lemma {:induction false} GatheredIsFrame(b: Buffer, h: History, ids: seq<nat>)
    requires Refines(b, h) && HasComplete(b)
    ensures Gathered(b, ids) == FrameAt(h, h.popped, ids)
  {
    if ids != [] {
      GatheredIsFrame(b, h, ids[..|ids| - 1]);
      var i := ids[|ids| - 1];
      if i in b.sources { assert IsAhead(b, i) && SourceRefines(b.sources[i], h.frames[i], h.popped); }
    }
  }

  lemma PopRefines(b: Buffer, h: History)
    requires Refines(b, h) && HasComplete(b)
    ensures Refines(Pop(b), h.(popped := h.popped + 1))
  {
    var k :| k in b.sources;
    assert IsAhead(b, k) && SourceRefines(b.sources[k], h.frames[k], h.popped);
    forall i | i in b.sources ensures SourceRefines(Pop(b).sources[i], h.frames[i], h.popped + 1) {
      assert IsAhead(b, i) && SourceRefines(b.sources[i], h.frames[i], h.popped);
      assert h.frames[i][h.popped..][1..] == h.frames[i][h.popped + 1..];
    }
    assert k in Pop(b).sources;
  }

  lemma InsertRefines(b: Buffer, h: History, i: nat, t: Tile)
    requires Refines(b, h) && i in b.sources
    ensures Refines(Insert(b, i, t), Record(h, InsertTile(i, t)))
  {
    var h' := Record(h, InsertTile(i, t));
    var f := h.frames[i];
    assert SourceRefines(b.sources[i], f, h.popped);
    assert f[h.popped..][..|f| - h.popped - 1] == f[h.popped..|f| - 1];
    assert h'.frames[i][h.popped..] == f[h.popped..|f| - 1] + [f[|f| - 1] + [t]];
    assert i in Insert(b, i, t).sources;
    forall k | k in b.sources ensures SourceRefines(Insert(b, i, t).sources[k], h'.frames[k], h'.popped) {
      assert SourceRefines(b.sources[k], h.frames[k], h.popped);
    }
  }

  lemma PushRefines(s: Source, f: seq<Tiles>, popped: nat)
    requires SourceRefines(s, f, popped) && |s.queue| <= MAX_QUEUE_SIZE && popped < WORD32
    ensures SourceRefines(Pushed(s), f + [[]], popped)
  {
    assert (f + [[]])[popped..] == f[popped..] + [[]];
  }

  lemma FinishRefines(b: Buffer, h: History, i: nat)
    requires Refines(b, h) && i in b.sources
    ensures Refines(Apply(b, FinishFrame(i)), Record(h, FinishFrame(i)))
    ensures Finish(b, i).None? <==> |h.frames[i]| - 1 - h.popped == MAX_QUEUE_SIZE
  {
    var b', h' := Apply(b, FinishFrame(i)), Record(h, FinishFrame(i));
    assert SourceRefines(b.sources[i], h.frames[i], h.popped);
    if Finish(b, i).Some? { PushRefines(b.sources[i], h.frames[i], h.popped); }
    assert i in b'.sources;
    forall k | k in b.sources ensures SourceRefines(b'.sources[k], h'.frames[k], h'.popped) {
      assert SourceRefines(b.sources[k], h.frames[k], h.popped);
    }
  }

  lemma RosterRefines(b: Buffer, h: History, op: Op)
    requires Refines(b, h) && (op.AddSource? || op.RemoveSource?)
    ensures Refines(Apply(b, op), Record(h, op))
  {
    var b', h' := Apply(b, op), Record(h, op);
    assert b'.sources.Keys == h'.frames.Keys;
    assert b'.sources == map[] <==> b'.sources.Keys == {};
    assert h'.frames == map[] <==> h'.frames.Keys == {};
    if op.AddSource? { assert NEW_SOURCE.queue[0..] == NEW_SOURCE.queue; }
    forall k | k in b'.sources ensures SourceRefines(b'.sources[k], h'.frames[k], h'.popped) {
      if k in b.sources { assert SourceRefines(b.sources[k], h.frames[k], h.popped); }
    }
  }

  lemma StepRefines(b: Buffer, h: History, op: Op)
    requires Refines(b, h) && Permitted(b, op)
    ensures Refines(Apply(b, op), Record(h, op))
  {
    match op {
      case AddSource(_) => RosterRefines(b, h, op);
      case RemoveSource(_) => RosterRefines(b, h, op);
      case InsertTile(i, t) =>
        assert SourceRefines(b.sources[i], h.frames[i], h.popped);
        InsertRefines(b, h, i, t);
      case FinishFrame(i) => FinishRefines(b, h, i);
      case PopFrame => PopRefines(b, h);
      case Allow(enable) =>
        forall k | k in b.sources ensures SourceRefines(Apply(b, op).sources[k], h.frames[k], h.popped) {
          assert SourceRefines(b.sources[k], h.frames[k], h.popped);
        }
    }
  }

  function Execute(ops: seq<Op>): Buffer {
    if ops == [] then NEW_BUFFER else Apply(Execute(ops[..|ops| - 1]), ops[|ops| - 1])
  }

  function Story(ops: seq<Op>): History {
    if ops == [] then History(map[], 0) else Record(Story(ops[..|ops| - 1]), ops[|ops| - 1])
  }

  ghost predicate Legal(ops: seq<Op>) {
    ops == [] || (Legal(ops[..|ops| - 1]) && Permitted(Execute(ops[..|ops| - 1]), ops[|ops| - 1]))
  }

  lemma {:induction false} RunRefines(ops: seq<Op>)
    requires Legal(ops)
    ensures Refines(Execute(ops), Story(ops))
  {
    if ops != [] {
      RunRefines(ops[..|ops| - 1]);
      StepRefines(Execute(ops[..|ops| - 1]), Story(ops[..|ops| - 1]), ops[|ops| - 1]);
    }
  }

  /**
   * After any sequence of operations the queue of a source holds exactly the frames it is ahead, plus the
   * open one. The distance of the indices is that of wrapping words.
   */
  lemma QueueSize(ops: seq<Op>, i: nat)
    requires Legal(ops) && i in Execute(ops).sources
    ensures var b := Execute(ops);
            && |b.sources[i].queue| == U32(b.sources[i].back - b.last) + 1
            && U32(b.sources[i].back - b.last) <= MAX_QUEUE_SIZE
            && (InTime(b) ==> |b.sources[i].queue| == b.sources[i].back - b.last + 1)
  {
    RunRefines(ops);
    SourceLeads(Execute(ops), Story(ops), i);
  }

  lemma SourceLeads(b: Buffer, h: History, i: nat)
    requires Refines(b, h) && i in b.sources
    ensures |b.sources[i].queue| == U32(b.sources[i].back - b.last) + 1 <= MAX_QUEUE_SIZE + 1
    ensures b.sources[i].back >= b.last ==> |b.sources[i].queue| == b.sources[i].back - b.last + 1
  {
    assert SourceRefines(b.sources[i], h.frames[i], b.last);
    Lead(b.sources[i].back, b.last, |h.frames[i]| - 1);
  }

  lemma Lead(back: nat, last: nat, closed: nat)
    requires last <= closed <= last + MAX_QUEUE_SIZE && last < WORD32
    requires back == if closed < WORD32 then closed else closed - WORD32
    ensures U32(back - last) == closed - last && (back >= last ==> back == closed)
  {
    if back != closed { assert back - last == closed - last - WORD32; }
  }

  /**
   * Alignment: the frame popped after n others consists, source by source in ascending order, of
   * exactly what each source inserted between its n-th and its (n+1)-th finish.
   */
  lemma PoppedFrameIsAligned(ops: seq<Op>)
    requires Legal(ops) && HasComplete(Execute(ops))
    ensures FrontFrame(Execute(ops)) == FrameAt(Story(ops), Story(ops).popped, Sorted(Story(ops).frames.Keys))
  {
    RunRefines(ops);
    GatheredIsFrame(Execute(ops), Story(ops), Sorted(Execute(ops).sources.Keys));
  }

  /** A frame is complete exactly if every source has finished more frames than were popped, and none 2^32. */
  lemma CompleteIff(b: Buffer, h: History)
    requires Refines(b, h)
    ensures HasComplete(b) <==>
            h.frames != map[] && forall i | i in h.frames :: h.popped + 1 < |h.frames[i]| <= WORD32
  {
    assert b.sources == map[] <==> b.sources.Keys == {};
    assert h.frames == map[] <==> h.frames.Keys == {};
    forall i | i in b.sources ensures IsAhead(b, i) <==> h.popped + 1 < |h.frames[i]| <= WORD32 {
      assert SourceRefines(b.sources[i], h.frames[i], h.popped);
    }
  }

  // ---------------------------------------------------------------------------------------
  // Where the indices end
  // ---------------------------------------------------------------------------------------

  /** No source is behind the frames that were popped. */
  predicate InTime(b: Buffer) {
    forall i {:trigger b.sources[i]} | i in b.sources :: b.sources[i].back >= b.last
  }

  /** A source falls behind by closing its frame 2^32 - 1, and in no other way. */
  lemma InTimeIff(b: Buffer, h: History)
    requires Refines(b, h)
    ensures InTime(b) <==> forall i | i in h.frames :: |h.frames[i]| <= WORD32
  {
    forall i | i in b.sources ensures b.sources[i].back >= b.last <==> |h.frames[i]| <= WORD32 {
      assert SourceRefines(b.sources[i], h.frames[i], h.popped);
    }
  }

  function Play(b: Buffer, ops: seq<Op>): Buffer {
    if ops == [] then b else Apply(Play(b, ops[..|ops| - 1]), ops[|ops| - 1])
  }

  /** The callers keep their promises, and no source leaves. */
  ghost predicate Playable(b: Buffer, ops: seq<Op>) {
    ops == [] ||
    (&& Playable(b, ops[..|ops| - 1]) && Permitted(Play(b, ops[..|ops| - 1]), ops[|ops| - 1])
     && !ops[|ops| - 1].RemoveSource?)
  }

  ghost predicate CanComplete(b: Buffer) {
    exists ops :: Playable(b, ops) && HasComplete(Play(b, ops))
  }

  /** The stream is not at its end. */
  predicate GoesOn(b: Buffer) {
    b.last < WORD32 - 1 && InTime(b)
  }

  lemma EndStays(b: Buffer, h: History, op: Op)
    requires Refines(b, h) && !GoesOn(b) && Permitted(b, op) && !op.RemoveSource?
    ensures !HasComplete(b) && !GoesOn(Apply(b, op))
  {
    CompleteIff(b, h);
    InTimeIff(b, h);
    if !InTime(b) {
      var i :| i in b.sources && b.sources[i].back < b.last;
      assert SourceRefines(b.sources[i], h.frames[i], h.popped);
      assert i in Apply(b, op).sources && Apply(b, op).sources[i].back < b.last;
    } else if k :| k in b.sources {
      assert SourceRefines(b.sources[k], h.frames[k], h.popped);
      assert !IsAhead(b, k);
    }
  }

  lemma {:induction false} EndIsEnd(b: Buffer, h: History, ops: seq<Op>) returns (h': History)
    requires Refines(b, h) && !GoesOn(b) && Playable(b, ops)
    ensures Refines(Play(b, ops), h') && !GoesOn(Play(b, ops)) && !HasComplete(Play(b, ops))
  {
    if ops == [] {
      h' := h;
      EndStays(b, h, Allow(true));
    } else {
      var before, op := ops[..|ops| - 1], ops[|ops| - 1];
      var h0 := EndIsEnd(b, h, before);
      EndStays(Play(b, before), h0, op);
      StepRefines(Play(b, before), h0, op);
      h' := Record(h0, op);
      EndStays(Play(b, ops), h', Allow(true));
    }
  }

  lemma PlayFirst(b: Buffer, op: Op, ops: seq<Op>)
    requires Permitted(b, op) && !op.RemoveSource? && Playable(Apply(b, op), ops)
    ensures Playable(b, [op] + ops) && Play(b, [op] + ops) == Play(Apply(b, op), ops)
  {
    if ops == [] {
      assert [op] + ops == [op] && [op][..0] == [];
      assert Playable(b, []) && Play(b, []) == b;
    } else {
      PlayFirst(b, op, ops[..|ops| - 1]);
      assert ([op] + ops)[..|ops|] == [op] + ops[..|ops| - 1];
    }
  }

  /** The sources that the others wait for. */
  function Lagging(b: Buffer): set<nat> {
    set i | i in b.sources && !IsAhead(b, i)
  }

  /** One of them finishes its frame. */
  lemma OneCatchesUp(b: Buffer, h: History, i: nat)
    requires Refines(b, h) && GoesOn(b) && i in Lagging(b)
    ensures var b' := Apply(b, FinishFrame(i));
            Refines(b', Record(h, FinishFrame(i))) && GoesOn(b') && b'.sources.Keys == b.sources.Keys
            && Lagging(b') == Lagging(b) - {i}
  {
    FinishRefines(b, h, i);
    assert SourceRefines(b.sources[i], h.frames[i], h.popped);
    assert !IsAhead(b, i) && b.sources[i].back >= b.last;
    CatchesUp(b, i);
  }

  lemma CatchesUp(b: Buffer, i: nat)
    requires GoesOn(b) && i in b.sources && b.sources[i].back == b.last && |b.sources[i].queue| == 1
    ensures var b' := Apply(b, FinishFrame(i));
            GoesOn(b') && b'.sources.Keys == b.sources.Keys && Lagging(b') == Lagging(b) - {i}
  {
    var b' := Apply(b, FinishFrame(i));
    assert b' == b.(sources := b.sources[i := Pushed(b.sources[i])]);
    forall k | k in b.sources && k != i ensures b'.sources[k] == b.sources[k] && IsAhead(b', k) == IsAhead(b, k) {
    }
    assert IsAhead(b', i);
  }

  lemma {:induction false} AllCatchUp(b: Buffer, h: History) returns (ops: seq<Op>)
    requires Refines(b, h) && GoesOn(b) && b.sources != map[]
    ensures Playable(b, ops) && HasComplete(Play(b, ops))
    decreases Lagging(b)
  {
    if i :| i in Lagging(b) {
      OneCatchesUp(b, h, i);
      var b' := Apply(b, FinishFrame(i));
      assert i in b'.sources;
      ops := AllCatchUp(b', Record(h, FinishFrame(i)));
      PlayFirst(b, FinishFrame(i), ops);
      ops := [FinishFrame(i)] + ops;
    } else {
      ops := [];
      forall i | i in b.sources ensures IsAhead(b, i) { assert i !in Lagging(b); }
    }
  }

  /**
   * How long a stream lasts: in every state a run can reach, the sources that are there (and any that may
   * still join) can complete another frame if and only if frame 2^32 - 1 is not the next one and no
   * source has closed its own frame 2^32 - 1. After that only the departure of sources helps.
   */
  lemma LastsIff(ops: seq<Op>)
    requires Legal(ops)
    ensures CanComplete(Execute(ops)) <==> GoesOn(Execute(ops))
  {
    RunRefines(ops);
    var b, h := Execute(ops), Story(ops);
    if GoesOn(b) {
      var more := MoreFrames(b, h);
      assert CanComplete(b);
    } else if CanComplete(b) {
      var more :| Playable(b, more) && HasComplete(Play(b, more));
      var h' := EndIsEnd(b, h, more);
      assert false;
    }
  }

  lemma MoreFrames(b: Buffer, h: History) returns (ops: seq<Op>)
    requires Refines(b, h) && GoesOn(b)
    ensures Playable(b, ops) && HasComplete(Play(b, ops))
  {
    if b.sources != map[] {
      ops := AllCatchUp(b, h);
    } else {
      var b' := Apply(b, AddSource(0));
      StepRefines(b, h, AddSource(0));
      assert 0 in b'.sources;
      ops := AllCatchUp(b', Record(h, AddSource(0)));
      PlayFirst(b, AddSource(0), ops);
      ops := [AddSource(0)] + ops;
    }
  }

  ghost predicate Reachable(b: Buffer) {
    exists ops :: Legal(ops) && Execute(ops) == b
  }

  lemma Follow(b: Buffer, op: Op)
    requires Reachable(b) && Permitted(b, op)
    ensures Reachable(Apply(b, op))
  {
    var ops :| Legal(ops) && Execute(ops) == b;
    assert (ops + [op])[..|ops|] == ops;
    assert Legal(ops + [op]);
  }

  function Blanks(n: nat): seq<Tiles> {
    seq(n, _ => [])
  }

  /** Source 0 is alone, n frames were popped, and it has closed ahead more, all without tiles. */
  function Alone(n: nat, ahead: nat): Buffer {
    Buffer(n, map[0 := Source(Blanks(ahead + 1), U32(n + ahead))], false)
  }

  lemma {:induction false} AloneReached(n: nat, ahead: nat)
    requires n < WORD32 && ahead <= MAX_QUEUE_SIZE
    ensures Reachable(Alone(n, ahead))
    decreases n, ahead
  {
    if ahead > 0 {
      AloneReached(n, ahead - 1);
      AloneFinishes(n, ahead);
      Follow(Alone(n, ahead - 1), FinishFrame(0));
    } else if n > 0 {
      AloneReached(n - 1, 1);
      AlonePops(n);
      Follow(Alone(n - 1, 1), PopFrame);
    } else {
      AloneJoins();
    }
  }

  lemma AloneJoins()
    ensures Reachable(Alone(0, 0))
  {
    assert Legal([]) && Execute([]) == NEW_BUFFER;
    Follow(NEW_BUFFER, AddSource(0));
    assert Blanks(1) == [[]];
    assert Apply(NEW_BUFFER, AddSource(0)).sources == Alone(0, 0).sources;
  }

  lemma AloneFinishes(n: nat, ahead: nat)
    requires 0 < ahead <= MAX_QUEUE_SIZE
    ensures Apply(Alone(n, ahead - 1), FinishFrame(0)) == Alone(n, ahead)
  {
    assert Blanks(ahead) + [[]] == Blanks(ahead + 1);
    NextWord(n + ahead - 1);
    assert Apply(Alone(n, ahead - 1), FinishFrame(0)).sources[0] == Alone(n, ahead).sources[0];
    assert Apply(Alone(n, ahead - 1), FinishFrame(0)).sources == Alone(n, ahead).sources;
  }

  lemma NextWord(x: nat)
    ensures U32(U32(x) + 1) == U32(x + 1)
  {
  }

  lemma AlonePops(n: nat)
    requires 0 < n < WORD32
    ensures HasComplete(Alone(n - 1, 1)) && Apply(Alone(n - 1, 1), PopFrame) == Alone(n, 0)
  {
    var b := Alone(n - 1, 1);
    assert b.sources[0].back == n && 0 in b.sources;
    assert IsAhead(b, 0);
    assert Blanks(2)[1..] == Blanks(1);
    assert Apply(b, PopFrame).sources == Alone(n, 0).sources;
  }

  /** Both ends are reached: the last index, and up to 150 frames earlier a source that has wrapped. */
  lemma EndsAreReached(n: nat)
    requires WORD32 - MAX_QUEUE_SIZE <= n < WORD32
    ensures Reachable(Alone(n, WORD32 - n)) && !InTime(Alone(n, WORD32 - n))
    ensures Reachable(Alone(WORD32 - 1, 0)) && InTime(Alone(WORD32 - 1, 0)) && !GoesOn(Alone(WORD32 - 1, 0))
  {
    AloneReached(n, WORD32 - n);
    AloneReached(WORD32 - 1, 0);
    AloneBack(n, WORD32 - n);
    AloneBack(WORD32 - 1, 0);
  }

  lemma AloneBack(n: nat, ahead: nat)
    requires n < WORD32 && n + ahead <= WORD32
    ensures InTime(Alone(n, ahead)) <==> n == 0 || n + ahead < WORD32
  {
    assert Alone(n, ahead).sources[0].back == if n + ahead < WORD32 then n + ahead else 0;
  }
}
