/**
 * The reference-counted, lock-free free list of blocks
 * (deflect/moodycamel/concurrentqueue.h, struct FreeList).
 *
 * `List` is what the program stores: the list head, each node's `freeListRefs` word and
 * `freeListNext` pointer, and where every thread stands. `Step` performs one atomic operation
 * of one thread. `Aux` is bookkeeping for the proof: `Step` never reads it.
 */
module FreeList {
  import opened Common

  type NodeId = nat

  const SHOULD_BE_ON_FREELIST: nat := 0x8000_0000

  /** refs & REFS_MASK, with REFS_MASK == SHOULD_BE_ON_FREELIST - 1. */
  function Masked(refs: nat): nat {
    refs % SHOULD_BE_ON_FREELIST
  }

  datatype Node = Node(refs: nat, next: Option<NodeId>)

  /** The next atomic operation of a thread. */
  datatype Label =
    | Idle
    | AddFlag                                          // add
    | KnownLoadHead | KnownSetNext | KnownSetRefs      // add_knowing_refcount_is_zero
    | KnownCas | KnownRetry
    | GetLoadHead | GetLoadRefs | GetIncrement         // try_get
    | GetLoadNext | GetCas | GetAssert | GetFinish | GetRelease

  /** Where add_knowing_refcount_is_zero returns to: the caller of add, or try_get's loop. */
  datatype Resume = ToCaller | ToLoop(head: Option<NodeId>)

  /** A thread: its position and its local variables. */
  datatype Thread = Thread(
    at: Label,
    node: NodeId,          // the node being added, or try_get's head / prevHead
    ptr: Option<NodeId>,   // the list head as last observed, or try_get's next
    seen: nat,             // try_get's refs
    k: Resume)

  datatype List = List(
    head: Option<NodeId>,
    nodes: map<NodeId, Node>,
    owned: set<NodeId>,    // handed out, or allocated and not added yet
    threads: map<ThreadId, Thread>)

  /** What an idle thread may start; a busy thread always performs its next operation. */
  datatype Action = Continue | Allocate(created: NodeId) | CallAdd(mine: NodeId) | CallTryGet

  predicate Enabled(s: List, t: ThreadId, a: Action) {
    && t in s.threads
    && (a == Continue <==> s.threads[t].at != Idle)
    && (a.Allocate? ==> a.created !in s.nodes)
    && (a.CallAdd? ==> a.mine in s.owned)
  }

  function At(s: List, n: NodeId): Node {
    if n in s.nodes then s.nodes[n] else Node(0, None)
  }

  function Goto(s: List, t: ThreadId, me: Thread): List {
    s.(threads := s.threads[t := me])
  }

  function SetNode(s: List, n: NodeId, node: Node): List {
    s.(nodes := s.nodes[n := node])
  }

  /** The top of try_get's `while (head != nullptr)`. */
  function Loop(me: Thread, head: Option<NodeId>): Thread {
    if head.Some? then me.(at := GetLoadRefs, node := head.value) else me.(at := Idle)
  }

  function Back(me: Thread): Thread {
    match me.k
    case ToCaller => me.(at := Idle)
    case ToLoop(head) => Loop(me, head)
  }

  /** One atomic operation of thread t. */
  function Step(s: List, t: ThreadId, a: Action): List {
    if !Enabled(s, t, a) then s else
    var me := s.threads[t];
    var n := me.node;
    var node := At(s, n);
    match me.at
    case Idle =>
      (match a
       case Allocate(c) => s.(nodes := s.nodes[c := Node(0, None)], owned := s.owned + {c})
       case CallAdd(c) => Goto(s.(owned := s.owned - {c}), t, me.(at := AddFlag, node := c))
       case CallTryGet => Goto(s, t, me.(at := GetLoadHead))
       case Continue => s)
    case AddFlag =>
      Goto(SetNode(s, n, node.(refs := U32(node.refs + SHOULD_BE_ON_FREELIST))), t,
           if node.refs == 0 then me.(at := KnownLoadHead, k := ToCaller) else me.(at := Idle))
    case KnownLoadHead => Goto(s, t, me.(at := KnownSetNext, ptr := s.head))
    case KnownSetNext => Goto(SetNode(s, n, node.(next := me.ptr)), t, me.(at := KnownSetRefs))
    case KnownSetRefs => Goto(SetNode(s, n, node.(refs := 1)), t, me.(at := KnownCas))
    case KnownCas =>
      if s.head == me.ptr
      then Goto(s.(head := Some(n)), t, Back(me))
      else Goto(s, t, me.(at := KnownRetry, ptr := s.head))
    case KnownRetry =>
      Goto(SetNode(s, n, node.(refs := U32(node.refs + SHOULD_BE_ON_FREELIST - 1))), t,
           if node.refs == 1 then me.(at := KnownSetNext) else Back(me))
    case GetLoadHead => Goto(s, t, Loop(me, s.head))
    case GetLoadRefs =>
      Goto(s, t, if Masked(node.refs) == 0 then me.(at := GetLoadHead) else me.(at := GetIncrement, seen := node.refs))
    case GetIncrement =>
      if node.refs == me.seen
      then Goto(SetNode(s, n, node.(refs := U32(node.refs + 1))), t, me.(at := GetLoadNext))
      else Goto(s, t, me.(at := GetLoadHead))
    case GetLoadNext => Goto(s, t, me.(at := GetCas, ptr := node.next))
    case GetCas =>
      if s.head == Some(n)
      then Goto(s.(head := me.ptr), t, me.(at := GetAssert))
      else Goto(s, t, me.(at := GetRelease, ptr := s.head))
    case GetAssert => Goto(s, t, me.(at := GetFinish))
    case GetFinish =>
      Goto(SetNode(s, n, node.(refs := U32(node.refs - 2))).(owned := s.owned + {n}), t, me.(at := Idle))
    case GetRelease =>
      Goto(SetNode(s, n, node.(refs := U32(node.refs - 1))), t,
           if node.refs == SHOULD_BE_ON_FREELIST + 1
           then me.(at := KnownLoadHead, k := ToLoop(me.ptr)) else Loop(me, me.ptr))
  }

  // ---------------------------------------------------------------------------------------
  // Bookkeeping
  // ---------------------------------------------------------------------------------------

  /** What the one thread in charge of a node is doing with it. */
  datatype Stage =
    | Calling  // add was called, the flag is not set yet
    | Adding   // prepares the node for the list; nobody else can reach it
    | Offered  // reference count published, not on the list yet
    | Taken    // popped, the list's reference not returned yet

  /** Where a node is in its life; exactly one of these at any time. */
  datatype Place =
    | Owned    // outside the list
    | Waiting  // flagged; whoever drops the last counted reference will add it
    | Listed
    | Working(stage: Stage, worker: ThreadId)

  datatype Event = Handed(node: NodeId) | Returned(node: NodeId)

  datatype Aux = Aux(list: seq<NodeId>, place: map<NodeId, Place>, log: seq<Event>)

  function Put(x: Aux, n: NodeId, p: Place): Aux {
    x.(place := x.place[n := p])
  }

  function Log(x: Aux, e: Event): Aux {
    x.(log := x.log + [e])
  }

  function AuxStep(s: List, x: Aux, t: ThreadId, a: Action): Aux {
    if !Enabled(s, t, a) then x else
    var me := s.threads[t];
    var n := me.node;
    var refs := At(s, n).refs;
    match me.at
    case Idle =>
      (match a
       case Allocate(c) => Log(Put(x, c, Owned), Handed(c))
       case CallAdd(c) => Log(Put(x, c, Working(Calling, t)), Returned(c))
       case _ => x)
    case AddFlag => Put(x, n, if refs == 0 then Working(Adding, t) else Waiting)
    case KnownSetRefs => Put(x, n, Working(Offered, t))
    case KnownCas => if s.head == me.ptr then Put(x, n, Listed).(list := [n] + x.list) else x
    case KnownRetry => Put(x, n, if refs == 1 then Working(Adding, t) else Waiting)
    case GetCas =>
      if s.head == Some(n) && x.list != []
      then Put(x, n, Working(Taken, t)).(list := x.list[1..]) else x
    case GetFinish => Log(Put(x, n, Owned), Handed(n))
    case GetRelease => if refs == SHOULD_BE_ON_FREELIST + 1 then Put(x, n, Working(Adding, t)) else x
    case _ => x
  }

  /** A thread at this position holds a counted reference on its node. */
  predicate Counted(at: Label) {
    at == GetLoadNext || at == GetCas || at == GetAssert || at == GetFinish || at == GetRelease
  }

  predicate Holds(th: Thread, n: NodeId) {
    Counted(th.at) && th.node == n
  }

  function Holders(threads: map<ThreadId, Thread>, n: NodeId): set<ThreadId> {
    set t | t in threads && Holds(threads[t], n)
  }

  /** What a thread at this position is in charge of its node for. */
  function Charge(at: Label): Option<Stage> {
    match at
    case AddFlag => Some(Calling)
    case KnownLoadHead => Some(Adding)
    case KnownSetNext => Some(Adding)
    case KnownSetRefs => Some(Adding)
    case KnownCas => Some(Offered)
    case KnownRetry => Some(Offered)
    case GetAssert => Some(Taken)
    case GetFinish => Some(Taken)
    case _ => None
  }

  /** A thread at this position relies on ptr being its node's next: it stored it, or read it. */
  predicate Relies(at: Label) {
    at == KnownSetRefs || at == KnownCas || at == GetCas
  }

  predicate Known(nodes: map<NodeId, Node>, n: Option<NodeId>) {
    n.Some? ==> n.value in nodes
  }

  /** The part of the word that does not come from threads holding a reference. */
  function Base(p: Place): nat {
    match p
    case Owned => 0
    case Waiting => SHOULD_BE_ON_FREELIST
    case Listed => 1
    case Working(stage, _) =>
      (match stage
       case Calling => 0
       case Adding => SHOULD_BE_ON_FREELIST
       case Offered => 1
       case Taken => 1)
  }

  /** The next pointers, followed from head, visit exactly list. */
  ghost predicate Linked(nodes: map<NodeId, Node>, head: Option<NodeId>, list: seq<NodeId>) {
    && head == (if list == [] then None else Some(list[0]))
    && (forall n | n in list :: n in nodes)
    && (forall i, j :: 0 <= i < j < |list| && j == i + 1 ==> nodes[list[i]].next == Some(list[j]))
    && (list != [] ==> nodes[list[|list| - 1]].next == None)
  }

  ghost predicate Distinct(list: seq<NodeId>) {
    forall i, j :: 0 <= i < j < |list| ==> list[i] != list[j]
  }

  ghost predicate NodeOk(s: List, x: Aux, n: NodeId)
    requires n in s.nodes && n in x.place
  {
    var p := x.place[n];
    && s.nodes[n].refs == Base(p) + |Holders(s.threads, n)|
    && (p == Waiting ==> |Holders(s.threads, n)| != 0)
    && (p.Working? && p.stage == Adding ==> |Holders(s.threads, n)| == 0)
    && (p == Owned <==> n in s.owned)
    && (p == Listed <==> n in x.list)
    && (p.Working? ==>
          p.worker in s.threads && s.threads[p.worker].node == n && Charge(s.threads[p.worker].at) == Some(p.stage))
    && Known(s.nodes, s.nodes[n].next)
  }

  ghost predicate ThreadOk(s: List, x: Aux, t: ThreadId)
    requires s.nodes.Keys == x.place.Keys && t in s.threads
  {
    var me := s.threads[t];
    && Known(s.nodes, me.ptr)
    && (me.k.ToLoop? ==> Known(s.nodes, me.k.head))
    && (me.at != Idle && me.at != GetLoadHead ==> me.node in s.nodes)
    && (Charge(me.at).Some? ==> x.place[me.node] == Working(Charge(me.at).value, t))
    && (Relies(me.at) ==> s.nodes[me.node].next == me.ptr)
    && (me.at == GetIncrement ==> Masked(me.seen) != 0)
  }

  /** n is in somebody's hands after log. */
  ghost predicate Out(log: seq<Event>, n: NodeId) {
    log != [] && (var e := log[|log| - 1];
                  if e.node == n then e.Handed? else Out(log[..|log| - 1], n))
  }

  /** A node is handed out only when it is not out, and returned only when it is. */
  ghost predicate Alternating(log: seq<Event>) {
    log != [] ==>
      var e := log[|log| - 1];
      var before := log[..|log| - 1];
      Alternating(before) && (e.Handed? <==> !Out(before, e.node))
  }

  ghost predicate Structure(s: List, x: Aux) {
    && |s.threads| < SHOULD_BE_ON_FREELIST - 1
    && s.nodes.Keys == x.place.Keys
    && s.owned <= s.nodes.Keys
    && Distinct(x.list)
    && Linked(s.nodes, s.head, x.list)
  }

  ghost predicate LogOk(s: List, x: Aux) {
    && Alternating(x.log)
    && (forall n {:trigger Out(x.log, n)} :: Out(x.log, n) <==> n in s.owned)
  }

  ghost predicate Inv(s: List, x: Aux) {
    && Structure(s, x)
    && (forall n {:trigger NodeOk(s, x, n)} | n in s.nodes :: NodeOk(s, x, n))
    && (forall t {:trigger ThreadOk(s, x, t)} | t in s.threads :: ThreadOk(s, x, t))
    && LogOk(s, x)
  }

  // ---------------------------------------------------------------------------------------
  // Preservation
  // ---------------------------------------------------------------------------------------

  lemma SubsetSize<T>(a: set<T>, b: set<T>)
    requires a <= b
    ensures |a| <= |b|
  {
    if a != {} {
      var e :| e in a;
      SubsetSize(a - {e}, b - {e});
    }
  }

  /** Moving thread t changes the holders of n by t at most. */
  lemma HoldersMove(threads: map<ThreadId, Thread>, t: ThreadId, me: Thread, n: NodeId)
    requires t in threads
    ensures |Holders(threads[t := me], n)| ==
            |Holders(threads, n)| + (if Holds(me, n) then 1 else 0) - (if Holds(threads[t], n) then 1 else 0)
    ensures |Holders(threads, n)| <= |threads| && |threads[t := me]| == |threads|
    ensures Holds(threads[t], n) ==> |Holders(threads, n)| > 0
  {
    var before, after := Holders(threads, n), Holders(threads[t := me], n);
    assert after == if Holds(me, n) then before + {t} else before - {t};
    assert after - {t} == before - {t};
    SubsetSize(before, threads.Keys);
    assert threads[t := me].Keys == threads.Keys;
    assert |threads| == |threads.Keys| && |threads[t := me]| == |threads[t := me].Keys|;
  }

  /** s' differs from s by one operation of t, which now stands at me, on node n. */
  ghost predicate Touches(s: List, x: Aux, s': List, x': Aux, t: ThreadId, me: Thread, n: NodeId) {
    && t in s.threads && s'.threads == s.threads[t := me]
    && n in s.nodes && s'.nodes.Keys == s.nodes.Keys == x'.place.Keys == x.place.Keys
    && (forall m | m in s.nodes && m != n :: s'.nodes[m] == s.nodes[m])
    && (forall m | m in s.nodes && m != n :: x'.place[m] == x.place[m])
    && (forall m | m != n :: (m in s'.owned <==> m in s.owned) && (m in x'.list <==> m in x.list))
    && (Counted(me.at) ==> me.node == n)
    && (Counted(s.threads[t].at) || Charge(s.threads[t].at).Some? ==> s.threads[t].node == n)
  }

  /** By the thread in charge of n, or leaving its place alone. */
  ghost predicate Fair(s: List, x: Aux, s': List, x': Aux, t: ThreadId, me: Thread, n: NodeId) {
    && Touches(s, x, s', x', t, me, n)
    && (x'.place[n] == x.place[n] || !x.place[n].Working? || x.place[n].worker == t)
    && (s'.nodes[n].next == s.nodes[n].next || x.place[n] == Working(Adding, t))
  }

  /** Such an operation that leaves n and t in order. */
  ghost predicate Local(s: List, x: Aux, s': List, x': Aux, t: ThreadId, me: Thread, n: NodeId) {
    Fair(s, x, s', x', t, me, n) && NodeOk(s', x', n) && ThreadOk(s', x', t)
  }

  /** The facts about the one thread and the one node an operation works with. */
  ghost predicate Here(s: List, x: Aux, t: ThreadId, n: NodeId) {
    && |s.threads| < SHOULD_BE_ON_FREELIST - 1
    && s.nodes.Keys == x.place.Keys
    && (if x.list == [] then s.head == None else s.head == Some(x.list[0]) && x.list[0] in s.nodes)
    && t in s.threads && n in s.nodes
    && NodeOk(s, x, n) && ThreadOk(s, x, t)
  }

  lemma OtherNode(s: List, x: Aux, s': List, x': Aux, t: ThreadId, me: Thread, n: NodeId, m: NodeId)
    requires Touches(s, x, s', x', t, me, n) && m in s.nodes && m != n && NodeOk(s, x, m)
    ensures NodeOk(s', x', m)
  {
    HoldersMove(s.threads, t, me, m);
  }

  lemma OtherThread(s: List, x: Aux, s': List, x': Aux, t: ThreadId, me: Thread, n: NodeId, u: ThreadId)
    requires Local(s, x, s', x', t, me, n) && u in s.threads && u != t && ThreadOk(s, x, u) && NodeOk(s, x, n)
    ensures ThreadOk(s', x', u)
  {
    assert s'.threads[u] == s.threads[u];
    HoldersMove(s.threads, u, s.threads[u], n);
  }

  /** Such an operation disturbs no other node and no other thread. */
  lemma Disturbance(s: List, x: Aux, s': List, x': Aux, t: ThreadId, me: Thread, n: NodeId)
    requires Inv(s, x) && Structure(s', x') && LogOk(s', x') && Local(s, x, s', x', t, me, n)
    ensures Inv(s', x')
  {
    forall m | m in s'.nodes ensures NodeOk(s', x', m) {
      if m != n { OtherNode(s, x, s', x', t, me, n, m); }
    }
    forall u | u in s'.threads ensures ThreadOk(s', x', u) {
      if u != t { OtherThread(s, x, s', x', t, me, n, u); }
    }
  }

  lemma OutAppend(log: seq<Event>, e: Event)
    requires Alternating(log) && (e.Handed? <==> !Out(log, e.node))
    ensures Alternating(log + [e])
    ensures forall n {:trigger Out(log + [e], n)} :: Out(log + [e], n) <==> if e.node == n then e.Handed? else Out(log, n)
  {
    assert (log + [e])[..|log|] == log;
  }

  lemma PushLinked(nodes: map<NodeId, Node>, head: Option<NodeId>, list: seq<NodeId>, n: NodeId)
    requires Linked(nodes, head, list) && Distinct(list) && n in nodes && n !in list && nodes[n].next == head
    ensures Linked(nodes, Some(n), [n] + list) && Distinct([n] + list)
  {
  }

  lemma PopLinked(nodes: map<NodeId, Node>, head: Option<NodeId>, list: seq<NodeId>)
    requires Linked(nodes, head, list) && Distinct(list) && list != []
    ensures Linked(nodes, nodes[list[0]].next, list[1..]) && Distinct(list[1..])
  {
    var rest := list[1..];
    assert forall i :: 0 <= i < |rest| ==> rest[i] == list[i + 1];
    if rest != [] { assert list[1] == rest[0]; }
  }

  lemma SameLinks(nodes: map<NodeId, Node>, nodes': map<NodeId, Node>, head: Option<NodeId>, list: seq<NodeId>)
    requires Linked(nodes, head, list) && nodes.Keys == nodes'.Keys
    requires forall n | n in list :: nodes'[n].next == nodes[n].next
    ensures Linked(nodes', head, list)
  {
  }

  /** The node an operation works with; none when a thread only enters or leaves, or loads head. */
  function Subject(me: Thread, a: Action): Option<NodeId> {
    if me.at == Idle then (if a.CallAdd? then Some(a.mine) else None)
    else if me.at == GetLoadHead then None
    else Some(me.node)
  }

  // One lemma for each kind of operation on a node.

  lemma CallAddLocal(s: List, x: Aux, t: ThreadId, n: NodeId)
    requires Enabled(s, t, CallAdd(n)) && Subject(s.threads[t], CallAdd(n)) == Some(n) && Here(s, x, t, n)
    requires s.threads[t].at == Idle
    ensures Local(s, x, Step(s, t, CallAdd(n)), AuxStep(s, x, t, CallAdd(n)), t, Step(s, t, CallAdd(n)).threads[t], n)
  {
    HoldersMove(s.threads, t, Step(s, t, CallAdd(n)).threads[t], n);
  }

  lemma AddFlagFair(s: List, x: Aux, t: ThreadId, n: NodeId)
    requires Enabled(s, t, Continue) && Subject(s.threads[t], Continue) == Some(n) && Here(s, x, t, n)
    requires s.threads[t].at == AddFlag
    ensures Fair(s, x, Step(s, t, Continue), AuxStep(s, x, t, Continue), t, Step(s, t, Continue).threads[t], n)
  {
  }

  lemma AddFlagNode(s: List, x: Aux, t: ThreadId, n: NodeId)
    requires Enabled(s, t, Continue) && Subject(s.threads[t], Continue) == Some(n) && Here(s, x, t, n)
    requires s.threads[t].at == AddFlag
    ensures NodeOk(Step(s, t, Continue), AuxStep(s, x, t, Continue), n)
  {
    HoldersMove(s.threads, t, Step(s, t, Continue).threads[t], n);
  }

  lemma AddFlagLocal(s: List, x: Aux, t: ThreadId, n: NodeId)
    requires Enabled(s, t, Continue) && Subject(s.threads[t], Continue) == Some(n) && Here(s, x, t, n)
    requires s.threads[t].at == AddFlag
    ensures Local(s, x, Step(s, t, Continue), AuxStep(s, x, t, Continue), t, Step(s, t, Continue).threads[t], n)
  {
    AddFlagFair(s, x, t, n);
    AddFlagNode(s, x, t, n);
  }

  lemma KnownLocal(s: List, x: Aux, t: ThreadId, n: NodeId)
    requires Enabled(s, t, Continue) && Subject(s.threads[t], Continue) == Some(n) && Here(s, x, t, n)
    requires s.threads[t].at == KnownLoadHead || s.threads[t].at == KnownSetNext || s.threads[t].at == KnownSetRefs
    ensures Local(s, x, Step(s, t, Continue), AuxStep(s, x, t, Continue), t, Step(s, t, Continue).threads[t], n)
  {
    HoldersMove(s.threads, t, Step(s, t, Continue).threads[t], n);
  }

  lemma KnownCasLocal(s: List, x: Aux, t: ThreadId, n: NodeId)
    requires Enabled(s, t, Continue) && Subject(s.threads[t], Continue) == Some(n) && Here(s, x, t, n)
    requires s.threads[t].at == KnownCas && s.head == s.threads[t].ptr
    ensures Local(s, x, Step(s, t, Continue), AuxStep(s, x, t, Continue), t, Step(s, t, Continue).threads[t], n)
  {
    HoldersMove(s.threads, t, Step(s, t, Continue).threads[t], n);
  }

  lemma KnownCasFailsLocal(s: List, x: Aux, t: ThreadId, n: NodeId)
    requires Enabled(s, t, Continue) && Subject(s.threads[t], Continue) == Some(n) && Here(s, x, t, n)
    requires s.threads[t].at == KnownCas && s.head != s.threads[t].ptr
    ensures Local(s, x, Step(s, t, Continue), AuxStep(s, x, t, Continue), t, Step(s, t, Continue).threads[t], n)
  {
    HoldersMove(s.threads, t, Step(s, t, Continue).threads[t], n);
  }

  lemma KnownRetryFair(s: List, x: Aux, t: ThreadId, n: NodeId)
    requires Enabled(s, t, Continue) && Subject(s.threads[t], Continue) == Some(n) && Here(s, x, t, n)
    requires s.threads[t].at == KnownRetry
    ensures Fair(s, x, Step(s, t, Continue), AuxStep(s, x, t, Continue), t, Step(s, t, Continue).threads[t], n)
  {
  }

  lemma KnownRetryNode(s: List, x: Aux, t: ThreadId, n: NodeId)
    requires Enabled(s, t, Continue) && Subject(s.threads[t], Continue) == Some(n) && Here(s, x, t, n)
    requires s.threads[t].at == KnownRetry
    ensures NodeOk(Step(s, t, Continue), AuxStep(s, x, t, Continue), n)
  {
    HoldersMove(s.threads, t, Step(s, t, Continue).threads[t], n);
  }

  lemma KnownRetryLocal(s: List, x: Aux, t: ThreadId, n: NodeId)
    requires Enabled(s, t, Continue) && Subject(s.threads[t], Continue) == Some(n) && Here(s, x, t, n)
    requires s.threads[t].at == KnownRetry
    ensures Local(s, x, Step(s, t, Continue), AuxStep(s, x, t, Continue), t, Step(s, t, Continue).threads[t], n)
  {
    KnownRetryFair(s, x, t, n);
    KnownRetryNode(s, x, t, n);
  }

  lemma ReadLocal(s: List, x: Aux, t: ThreadId, n: NodeId)
    requires Enabled(s, t, Continue) && Subject(s.threads[t], Continue) == Some(n) && Here(s, x, t, n)
    requires s.threads[t].at == GetLoadRefs || s.threads[t].at == GetLoadNext || s.threads[t].at == GetAssert
    ensures Local(s, x, Step(s, t, Continue), AuxStep(s, x, t, Continue), t, Step(s, t, Continue).threads[t], n)
  {
    HoldersMove(s.threads, t, Step(s, t, Continue).threads[t], n);
  }

  lemma IncrementFair(s: List, x: Aux, t: ThreadId, n: NodeId)
    requires Enabled(s, t, Continue) && Subject(s.threads[t], Continue) == Some(n) && Here(s, x, t, n)
    requires s.threads[t].at == GetIncrement
    ensures Fair(s, x, Step(s, t, Continue), AuxStep(s, x, t, Continue), t, Step(s, t, Continue).threads[t], n)
  {
  }

  lemma IncrementNode(s: List, x: Aux, t: ThreadId, n: NodeId)
    requires Enabled(s, t, Continue) && Subject(s.threads[t], Continue) == Some(n) && Here(s, x, t, n)
    requires s.threads[t].at == GetIncrement
    ensures NodeOk(Step(s, t, Continue), AuxStep(s, x, t, Continue), n)
  {
    HoldersMove(s.threads, t, Step(s, t, Continue).threads[t], n);
  }

  lemma IncrementThread(s: List, x: Aux, t: ThreadId, n: NodeId)
    requires Enabled(s, t, Continue) && Subject(s.threads[t], Continue) == Some(n) && Here(s, x, t, n)
    requires s.threads[t].at == GetIncrement && s.nodes.Keys == AuxStep(s, x, t, Continue).place.Keys
    ensures ThreadOk(Step(s, t, Continue), AuxStep(s, x, t, Continue), t)
  {
  }

  lemma IncrementLocal(s: List, x: Aux, t: ThreadId, n: NodeId)
    requires Enabled(s, t, Continue) && Subject(s.threads[t], Continue) == Some(n) && Here(s, x, t, n)
    requires s.threads[t].at == GetIncrement
    ensures Local(s, x, Step(s, t, Continue), AuxStep(s, x, t, Continue), t, Step(s, t, Continue).threads[t], n)
  {
    IncrementFair(s, x, t, n);
    IncrementNode(s, x, t, n);
    IncrementThread(s, x, t, n);
  }

  lemma GetCasFair(s: List, x: Aux, t: ThreadId, n: NodeId)
    requires Enabled(s, t, Continue) && Subject(s.threads[t], Continue) == Some(n) && Here(s, x, t, n)
    requires s.threads[t].at == GetCas && Distinct(x.list)
    ensures Fair(s, x, Step(s, t, Continue), AuxStep(s, x, t, Continue), t, Step(s, t, Continue).threads[t], n)
  {
    if s.head == Some(n) { assert x.list == [n] + x.list[1..]; }
  }

  lemma GetCasNode(s: List, x: Aux, t: ThreadId, n: NodeId)
    requires Enabled(s, t, Continue) && Subject(s.threads[t], Continue) == Some(n) && Here(s, x, t, n)
    requires s.threads[t].at == GetCas && Distinct(x.list)
    ensures NodeOk(Step(s, t, Continue), AuxStep(s, x, t, Continue), n)
  {
    if s.head == Some(n) { assert x.list == [n] + x.list[1..]; }
    HoldersMove(s.threads, t, Step(s, t, Continue).threads[t], n);
  }

  lemma GetCasLocal(s: List, x: Aux, t: ThreadId, n: NodeId)
    requires Enabled(s, t, Continue) && Subject(s.threads[t], Continue) == Some(n) && Here(s, x, t, n)
    requires s.threads[t].at == GetCas && Distinct(x.list)
    ensures Local(s, x, Step(s, t, Continue), AuxStep(s, x, t, Continue), t, Step(s, t, Continue).threads[t], n)
  {
    GetCasFair(s, x, t, n);
    GetCasNode(s, x, t, n);
  }

  lemma FinishLocal(s: List, x: Aux, t: ThreadId, n: NodeId)
    requires Enabled(s, t, Continue) && Subject(s.threads[t], Continue) == Some(n) && Here(s, x, t, n)
    requires s.threads[t].at == GetFinish
    ensures Local(s, x, Step(s, t, Continue), AuxStep(s, x, t, Continue), t, Step(s, t, Continue).threads[t], n)
  {
    HoldersMove(s.threads, t, Step(s, t, Continue).threads[t], n);
  }

  /** Whoever drops the last reference of a flagged node finds it waiting. */
  lemma LastReference(s: List, x: Aux, t: ThreadId, n: NodeId)
    requires Here(s, x, t, n) && s.threads[t].at == GetRelease && s.threads[t].node == n
    ensures s.nodes[n].refs == SHOULD_BE_ON_FREELIST + 1 ==> x.place[n] == Waiting
    ensures s.nodes[n].refs == Base(x.place[n]) + |Holders(s.threads, n)| && |Holders(s.threads, n)| > 0
  {
    HoldersMove(s.threads, t, s.threads[t], n);
  }

  lemma ReleaseFair(s: List, x: Aux, t: ThreadId, n: NodeId)
    requires Enabled(s, t, Continue) && Subject(s.threads[t], Continue) == Some(n) && Here(s, x, t, n)
    requires s.threads[t].at == GetRelease
    ensures Fair(s, x, Step(s, t, Continue), AuxStep(s, x, t, Continue), t, Step(s, t, Continue).threads[t], n)
  {
    LastReference(s, x, t, n);
  }

  lemma ReleaseNode(s: List, x: Aux, t: ThreadId, n: NodeId)
    requires Enabled(s, t, Continue) && Subject(s.threads[t], Continue) == Some(n) && Here(s, x, t, n)
    requires s.threads[t].at == GetRelease
    ensures NodeOk(Step(s, t, Continue), AuxStep(s, x, t, Continue), n)
  {
    LastReference(s, x, t, n);
    if s.nodes[n].refs == SHOULD_BE_ON_FREELIST + 1 { LastReleaseNode(s, x, t, n); } else { EarlyReleaseNode(s, x, t, n); }
  }

  lemma LastReleaseNode(s: List, x: Aux, t: ThreadId, n: NodeId)
    requires Enabled(s, t, Continue) && Subject(s.threads[t], Continue) == Some(n) && Here(s, x, t, n)
    requires s.threads[t].at == GetRelease
    requires s.nodes[n].refs == SHOULD_BE_ON_FREELIST + 1 && x.place[n] == Waiting
    ensures NodeOk(Step(s, t, Continue), AuxStep(s, x, t, Continue), n)
  {
    HoldersMove(s.threads, t, Step(s, t, Continue).threads[t], n);
  }

  lemma EarlyReleaseNode(s: List, x: Aux, t: ThreadId, n: NodeId)
    requires Enabled(s, t, Continue) && Subject(s.threads[t], Continue) == Some(n) && Here(s, x, t, n)
    requires s.threads[t].at == GetRelease
    requires s.nodes[n].refs != SHOULD_BE_ON_FREELIST + 1
    ensures NodeOk(Step(s, t, Continue), AuxStep(s, x, t, Continue), n)
  {
    HoldersMove(s.threads, t, Step(s, t, Continue).threads[t], n);
  }

  lemma ReleaseThread(s: List, x: Aux, t: ThreadId, n: NodeId)
    requires Enabled(s, t, Continue) && Subject(s.threads[t], Continue) == Some(n) && Here(s, x, t, n)
    requires s.threads[t].at == GetRelease && s.nodes.Keys == AuxStep(s, x, t, Continue).place.Keys
    ensures ThreadOk(Step(s, t, Continue), AuxStep(s, x, t, Continue), t)
  {
  }

  lemma ReleaseLocal(s: List, x: Aux, t: ThreadId, n: NodeId)
    requires Enabled(s, t, Continue) && Subject(s.threads[t], Continue) == Some(n) && Here(s, x, t, n)
    requires s.threads[t].at == GetRelease
    ensures Local(s, x, Step(s, t, Continue), AuxStep(s, x, t, Continue), t, Step(s, t, Continue).threads[t], n)
  {
    ReleaseFair(s, x, t, n);
    ReleaseNode(s, x, t, n);
    ReleaseThread(s, x, t, n);
  }

  lemma SubjectLocal(s: List, x: Aux, t: ThreadId, a: Action, n: NodeId)
    requires Enabled(s, t, a) && Subject(s.threads[t], a) == Some(n) && Here(s, x, t, n) && Distinct(x.list)
    ensures Local(s, x, Step(s, t, a), AuxStep(s, x, t, a), t, Step(s, t, a).threads[t], n)
  {
    match s.threads[t].at {
      case Idle => CallAddLocal(s, x, t, n);
      case AddFlag => AddFlagLocal(s, x, t, n);
      case KnownCas =>
        if s.head == s.threads[t].ptr { KnownCasLocal(s, x, t, n); } else { KnownCasFailsLocal(s, x, t, n); }
      case KnownRetry => KnownRetryLocal(s, x, t, n);
      case GetIncrement => IncrementLocal(s, x, t, n);
      case GetCas => GetCasLocal(s, x, t, n);
      case GetFinish => FinishLocal(s, x, t, n);
      case GetRelease => ReleaseLocal(s, x, t, n);
      case KnownLoadHead => KnownLocal(s, x, t, n);
      case KnownSetNext => KnownLocal(s, x, t, n);
      case KnownSetRefs => KnownLocal(s, x, t, n);
      case _ => ReadLocal(s, x, t, n);
    }
  }

  lemma ListStep(s: List, x: Aux, t: ThreadId, a: Action, n: NodeId)
    requires Enabled(s, t, a) && Subject(s.threads[t], a) == Some(n) && Here(s, x, t, n)
    requires Linked(s.nodes, s.head, x.list) && Distinct(x.list)
    ensures Linked(Step(s, t, a).nodes, Step(s, t, a).head, AuxStep(s, x, t, a).list)
    ensures Distinct(AuxStep(s, x, t, a).list)
  {
    if s.threads[t].at == KnownCas && s.head == s.threads[t].ptr {
      PushLinked(s.nodes, s.head, x.list, n);
    } else if s.threads[t].at == GetCas && s.head == Some(n) {
      PopLinked(s.nodes, s.head, x.list);
    } else {
      SameLinks(s.nodes, Step(s, t, a).nodes, s.head, x.list);
    }
  }

  lemma StructureStep(s: List, x: Aux, s': List, x': Aux, t: ThreadId, me: Thread, n: NodeId)
    requires Structure(s, x) && Local(s, x, s', x', t, me, n)
    requires Linked(s'.nodes, s'.head, x'.list) && Distinct(x'.list)
    ensures Structure(s', x')
  {
    HoldersMove(s.threads, t, me, n);
  }

  lemma LogStep(s: List, x: Aux, t: ThreadId, a: Action, n: NodeId)
    requires Enabled(s, t, a) && Subject(s.threads[t], a) == Some(n) && Here(s, x, t, n) && LogOk(s, x)
    ensures LogOk(Step(s, t, a), AuxStep(s, x, t, a))
  {
    var s', x' := Step(s, t, a), AuxStep(s, x, t, a);
    if x'.log != x.log {
      assert Out(x.log, n) <==> n in s.owned;
      OutAppend(x.log, x'.log[|x.log|]);
      forall m ensures Out(x'.log, m) <==> m in s'.owned { assert Out(x.log, m) <==> m in s.owned; }
    }
  }

  lemma AllocateInv(s: List, x: Aux, t: ThreadId, n: NodeId)
    requires Inv(s, x) && Enabled(s, t, Allocate(n))
    ensures Inv(Step(s, t, Allocate(n)), AuxStep(s, x, t, Allocate(n)))
  {
    var s', x' := Step(s, t, Allocate(n)), AuxStep(s, x, t, Allocate(n));
    AllocateStructure(s, x, t, n);
    AllocateLog(s, x, t, n);
    forall u | u in s.threads ensures ThreadOk(s', x', u) && !Holds(s.threads[u], n) { assert ThreadOk(s, x, u); }
    assert Holders(s.threads, n) == {};
    forall m | m in s'.nodes ensures NodeOk(s', x', m) {
      if m != n { assert NodeOk(s, x, m); }
    }
  }

  lemma AllocateStructure(s: List, x: Aux, t: ThreadId, n: NodeId)
    requires Structure(s, x) && Enabled(s, t, Allocate(n))
    ensures Structure(Step(s, t, Allocate(n)), AuxStep(s, x, t, Allocate(n)))
  {
  }

  lemma AllocateLog(s: List, x: Aux, t: ThreadId, n: NodeId)
    requires LogOk(s, x) && s.owned <= s.nodes.Keys && Enabled(s, t, Allocate(n))
    ensures LogOk(Step(s, t, Allocate(n)), AuxStep(s, x, t, Allocate(n)))
  {
    var s', x' := Step(s, t, Allocate(n)), AuxStep(s, x, t, Allocate(n));
    assert Out(x.log, n) <==> n in s.owned;
    OutAppend(x.log, Handed(n));
    forall m ensures Out(x'.log, m) <==> m in s'.owned { assert Out(x.log, m) <==> m in s.owned; }
  }

  /** A thread that enters try_get or loads head there. */
  lemma EnterInv(s: List, x: Aux, t: ThreadId, me: Thread)
    requires Inv(s, x) && t in s.threads && (s.threads[t].at == Idle || s.threads[t].at == GetLoadHead)
    requires me == s.threads[t].(at := GetLoadHead) || me == Loop(s.threads[t], s.head)
    ensures Inv(Goto(s, t, me), x)
  {
    var s' := Goto(s, t, me);
    forall m | m in s'.nodes ensures NodeOk(s', x, m) {
      assert NodeOk(s, x, m);
      HoldersMove(s.threads, t, me, m);
    }
    assert ThreadOk(s, x, t);
    assert ThreadOk(s', x, t);
    forall u | u in s'.threads && u != t ensures ThreadOk(s', x, u) {
      assert ThreadOk(s, x, u);
    }
    HoldersMove(s.threads, t, me, 0);
  }

  /** Every atomic operation of every thread keeps the invariant. */
  lemma StepInv(s: List, x: Aux, t: ThreadId, a: Action)
    requires Inv(s, x)
    ensures Inv(Step(s, t, a), AuxStep(s, x, t, a))
  {
    if Enabled(s, t, a) {
      assert ThreadOk(s, x, t);
      match Subject(s.threads[t], a) {
        case Some(n) =>
          assert NodeOk(s, x, n);
          var s', x' := Step(s, t, a), AuxStep(s, x, t, a);
          SubjectLocal(s, x, t, a, n);
          ListStep(s, x, t, a, n);
          StructureStep(s, x, s', x', t, s'.threads[t], n);
          LogStep(s, x, t, a, n);
          Disturbance(s, x, s', x', t, s'.threads[t], n);
        case None =>
          if a.Allocate? {
            AllocateInv(s, x, t, a.created);
          } else {
            EnterInv(s, x, t, Step(s, t, a).threads[t]);
          }
      }
    }
  }

  // ---------------------------------------------------------------------------------------
  // Whole runs
  // ---------------------------------------------------------------------------------------

  type Schedule = seq<(ThreadId, Action)>

  /** An empty list used by these threads. */
  function Init(threads: set<ThreadId>): List {
    List(None, map[], {}, map t | t in threads :: Thread(Idle, 0, None, 0, ToCaller))
  }

  /** The state after the scheduler picked these operations; one that is not enabled is skipped. */
  function Run(threads: set<ThreadId>, steps: Schedule): List {
    if steps == [] then Init(threads)
    else
      var last := steps[|steps| - 1];
      Step(Run(threads, steps[..|steps| - 1]), last.0, last.1)
  }

  function History(threads: set<ThreadId>, steps: Schedule): Aux {
    if steps == [] then Aux([], map[], [])
    else
      var last, before := steps[|steps| - 1], steps[..|steps| - 1];
      AuxStep(Run(threads, before), History(threads, before), last.0, last.1)
  }

  /** The 31-bit counter has room for one reference per thread and the list's own. */
  ghost predicate FewThreads(threads: set<ThreadId>) {
    |threads| < SHOULD_BE_ON_FREELIST - 1
  }

  lemma {:induction false} RunInv(threads: set<ThreadId>, steps: Schedule)
    requires FewThreads(threads)
    ensures Inv(Run(threads, steps), History(threads, steps))
  {
    if steps == [] {
      assert Init(threads).threads.Keys == threads;
      assert |Init(threads).threads| == |Init(threads).threads.Keys|;
    } else {
      var last, before := steps[|steps| - 1], steps[..|steps| - 1];
      RunInv(threads, before);
      StepInv(Run(threads, before), History(threads, before), last.0, last.1);
    }
  }

  /** Main theorem: no node is handed to two takers without an add in between, in any interleaving. */
  lemma NeverHandedTwice(threads: set<ThreadId>, steps: Schedule, i: nat, j: nat)
    requires FewThreads(threads)
    requires i < j < |History(threads, steps).log|
    requires History(threads, steps).log[i].Handed? && History(threads, steps).log[i] == History(threads, steps).log[j]
    ensures exists k :: i < k < j && History(threads, steps).log[k] == Returned(History(threads, steps).log[i].node)
  {
    RunInv(threads, steps);
    var log := History(threads, steps).log;
    AlternatingPrefix(log, j + 1);
    assert log[..j + 1][..j] == log[..j];
    NotOut(log[..j], log[i].node, i);
    var k :| i < k < j && log[..j][k] == Returned(log[i].node);
    assert log[k] == Returned(log[i].node);
  }

  lemma {:induction false} AlternatingPrefix(log: seq<Event>, j: nat)
    requires Alternating(log) && j <= |log|
    ensures Alternating(log[..j])
  {
    if j < |log| {
      var before := log[..|log| - 1];
      AlternatingPrefix(before, j);
      assert before[..j] == log[..j];
    } else {
      assert log[..j] == log;
    }
  }

  /** Handed at i but not out at the end: it was returned in between. */
  lemma {:induction false} NotOut(log: seq<Event>, n: NodeId, i: nat)
    requires i < |log| && log[i] == Handed(n) && !Out(log, n)
    ensures exists k :: i < k < |log| && log[k] == Returned(n)
  {
    var last := |log| - 1;
    if log[last] != Returned(n) {
      NotOut(log[..last], n, i);
      var k :| i < k < last && log[..last][k] == Returned(n);
      assert log[k] == Returned(n);
    }
  }

  /** No ABA: while any thread holds a counted reference on a node, its next pointer stands still. */
  lemma NextStandsStill(threads: set<ThreadId>, steps: Schedule, t: ThreadId, a: Action, n: NodeId)
    requires FewThreads(threads)
    requires n in Run(threads, steps).nodes && Holders(Run(threads, steps).threads, n) != {}
    ensures Step(Run(threads, steps), t, a).nodes[n].next == Run(threads, steps).nodes[n].next
  {
    RunInv(threads, steps);
    HeldNext(Run(threads, steps), History(threads, steps), t, a, n);
  }

  lemma HeldNext(s: List, x: Aux, t: ThreadId, a: Action, n: NodeId)
    requires Inv(s, x) && n in s.nodes && Holders(s.threads, n) != {}
    ensures Step(s, t, a).nodes[n].next == s.nodes[n].next
  {
    assert NodeOk(s, x, n);
    if Enabled(s, t, a) && s.threads[t].at == KnownSetNext {
      assert ThreadOk(s, x, t);
    }
  }

  /** The compare-and-swap of try_get that succeeds installs the node after the one it takes. */
  lemma PopIsExact(threads: set<ThreadId>, steps: Schedule, t: ThreadId)
    requires FewThreads(threads)
    requires var s := Run(threads, steps);
             t in s.threads && s.threads[t].at == GetCas && s.head == Some(s.threads[t].node)
    ensures var s := Run(threads, steps); var list := History(threads, steps).list;
            list != [] && s.threads[t].node == list[0]
            && s.threads[t].ptr == (if |list| > 1 then Some(list[1]) else None)
  {
    RunInv(threads, steps);
    PopsSecond(Run(threads, steps), History(threads, steps), t);
  }

  lemma PopsSecond(s: List, x: Aux, t: ThreadId)
    requires Inv(s, x) && t in s.threads && s.threads[t].at == GetCas && s.head == Some(s.threads[t].node)
    ensures x.list != [] && s.threads[t].node == x.list[0]
    ensures s.threads[t].ptr == if |x.list| > 1 then Some(x.list[1]) else None
  {
    assert ThreadOk(s, x, t);
  }

  /** The assertion inside try_get: a node just popped does not carry the flag. */
  lemma PoppedIsNotFlagged(threads: set<ThreadId>, steps: Schedule, t: ThreadId)
    requires FewThreads(threads)
    requires t in Run(threads, steps).threads && Run(threads, steps).threads[t].at == GetAssert
    ensures At(Run(threads, steps), Run(threads, steps).threads[t].node).refs < SHOULD_BE_ON_FREELIST
  {
    RunInv(threads, steps);
    TakenWord(Run(threads, steps), History(threads, steps), t);
  }

  lemma TakenWord(s: List, x: Aux, t: ThreadId)
    requires Inv(s, x) && t in s.threads && s.threads[t].at == GetAssert
    ensures At(s, s.threads[t].node).refs < SHOULD_BE_ON_FREELIST
  {
    assert ThreadOk(s, x, t) && NodeOk(s, x, s.threads[t].node);
    HoldersMove(s.threads, t, s.threads[t], s.threads[t].node);
  }

  /** No node is lost: once every thread is idle, a node is either in somebody's hands or on the list. */
  lemma NothingLost(threads: set<ThreadId>, steps: Schedule, n: NodeId)
    requires FewThreads(threads)
    requires n in Run(threads, steps).nodes
    requires forall t | t in Run(threads, steps).threads :: Run(threads, steps).threads[t].at == Idle
    ensures var s := Run(threads, steps); var list := History(threads, steps).list;
            && (n in s.owned <==> n !in list)
            && s.nodes[n].refs == (if n in list then 1 else 0)
            && Linked(s.nodes, s.head, list) && Distinct(list)
  {
    RunInv(threads, steps);
    var s, x := Run(threads, steps), History(threads, steps);
    assert NodeOk(s, x, n);
    assert Holders(s.threads, n) == {};
  }

  /** A flagged node always has a thread that will notice the count drop to zero. */
  lemma SomebodyWillAdd(threads: set<ThreadId>, steps: Schedule, n: NodeId)
    requires FewThreads(threads)
    requires n in Run(threads, steps).nodes && n !in Run(threads, steps).owned && n !in History(threads, steps).list
    ensures var s := Run(threads, steps);
            || Holders(s.threads, n) != {}
            || exists t :: t in s.threads && s.threads[t].node == n && Charge(s.threads[t].at).Some?
  {
    RunInv(threads, steps);
    assert NodeOk(Run(threads, steps), History(threads, steps), n);
  }

  // ---------------------------------------------------------------------------------------
  // What a call gets done
  // ---------------------------------------------------------------------------------------

  /** Inside try_get, or adding a node on behalf of it. */
  predicate TryGets(th: Thread) {
    || th.at in {GetLoadHead, GetLoadRefs, GetIncrement, GetLoadNext, GetCas, GetAssert, GetFinish, GetRelease}
    || (th.at in {KnownLoadHead, KnownSetNext, KnownSetRefs, KnownCas, KnownRetry} && th.k.ToLoop?)
  }

  /** At some moment since t's present call began the list had no head. */
  ghost predicate SawEmpty(threads: set<ThreadId>, steps: Schedule, t: ThreadId) {
    var s := Run(threads, steps);
    && t in s.threads && s.threads[t].at != Idle
    && (s.head == None || (steps != [] && SawEmpty(threads, steps[..|steps| - 1], t)))
  }

  /** It goes by an empty head. */
  predicate FoundEmpty(th: Thread) {
    || (th.at == GetRelease && th.ptr == None)
    || (th.at in {KnownLoadHead, KnownSetNext, KnownSetRefs, KnownCas, KnownRetry} && th.k == ToLoop(None))
  }

  lemma FindsEmpty(s: List, u: ThreadId, a: Action, t: ThreadId)
    requires t in Step(s, u, a).threads && FoundEmpty(Step(s, u, a).threads[t])
    ensures t in s.threads && s.threads[t].at != Idle && (FoundEmpty(s.threads[t]) || Step(s, u, a).head == None)
  {
  }

  /** Whoever does so has seen one during its call. */
  lemma {:induction false} EmptyWasSeen(threads: set<ThreadId>, steps: Schedule, t: ThreadId)
    requires t in Run(threads, steps).threads && FoundEmpty(Run(threads, steps).threads[t])
    ensures SawEmpty(threads, steps, t)
  {
    if steps != [] {
      var before, last := steps[..|steps| - 1], steps[|steps| - 1];
      FindsEmpty(Run(threads, before), last.0, last.1, t);
      if FoundEmpty(Run(threads, before).threads[t]) { EmptyWasSeen(threads, before, t); }
    }
  }

  /** The latest call of t was one of try_get. */
  predicate InGet(threads: set<ThreadId>, steps: Schedule, t: ThreadId) {
    steps != [] &&
    var before, (u, a) := steps[..|steps| - 1], steps[|steps| - 1];
    if u == t && a != Continue && Enabled(Run(threads, before), u, a) then a == CallTryGet else InGet(threads, before, t)
  }

  lemma TryGetsStep(s: List, u: ThreadId, a: Action, t: ThreadId)
    requires t in Step(s, u, a).threads && Step(s, u, a).threads[t].at != Idle
    ensures t in s.threads
    ensures u == t && Enabled(s, u, a) && a != Continue ==> (TryGets(Step(s, u, a).threads[t]) <==> a == CallTryGet)
    ensures !(u == t && Enabled(s, u, a) && a != Continue) ==>
              s.threads[t].at != Idle && (TryGets(Step(s, u, a).threads[t]) <==> TryGets(s.threads[t]))
  {
  }

  /** A busy thread is where its latest call belongs. */
  lemma {:induction false} WhereItBelongs(threads: set<ThreadId>, steps: Schedule, t: ThreadId)
    requires t in Run(threads, steps).threads && Run(threads, steps).threads[t].at != Idle
    ensures TryGets(Run(threads, steps).threads[t]) <==> InGet(threads, steps, t)
  {
    if steps != [] {
      var before, last := steps[..|steps| - 1], steps[|steps| - 1];
      var s := Run(threads, before);
      TryGetsStep(s, last.0, last.1, t);
      if !(last.0 == t && Enabled(s, last.0, last.1) && last.1 != Continue) { WhereItBelongs(threads, before, t); }
    }
  }

  /**
   * In every run, a call of try_get that ends either hands its node out, which nobody had, or the list was
   * without a head at some moment during the call.
   */
  lemma EmptyHandedMeansEmpty(threads: set<ThreadId>, steps: Schedule, t: ThreadId)
    requires FewThreads(threads)
    requires t in Run(threads, steps).threads && Run(threads, steps).threads[t].at != Idle && InGet(threads, steps, t)
    requires Step(Run(threads, steps), t, Continue).threads[t].at == Idle
    ensures var s, x := Run(threads, steps), History(threads, steps);
            var n, s' := s.threads[t].node, Step(s, t, Continue);
            || (n !in s.owned && s'.owned == s.owned + {n} && AuxStep(s, x, t, Continue).log == x.log + [Handed(n)])
            || SawEmpty(threads, steps, t)
  {
    RunInv(threads, steps);
    WhereItBelongs(threads, steps, t);
    Leaves(Run(threads, steps), t);
    if Run(threads, steps).threads[t].at == GetFinish {
      HandsOut(Run(threads, steps), History(threads, steps), t);
    } else if Run(threads, steps).head.Some? {
      EmptyWasSeen(threads, steps, t);
    }
  }

  lemma Leaves(s: List, t: ThreadId)
    requires t in s.threads && TryGets(s.threads[t]) && Step(s, t, Continue).threads[t].at == Idle
    ensures s.threads[t].at != Idle
    ensures s.threads[t].at == GetFinish || s.head == None || FoundEmpty(s.threads[t])
  {
  }

  lemma HandsOut(s: List, x: Aux, t: ThreadId)
    requires Inv(s, x) && t in s.threads && s.threads[t].at == GetFinish
    ensures var n := s.threads[t].node;
            && n !in s.owned && Step(s, t, Continue).owned == s.owned + {n}
            && AuxStep(s, x, t, Continue).log == x.log + [Handed(n)]
  {
    assert ThreadOk(s, x, t) && NodeOk(s, x, s.threads[t].node);
  }

  /** k operations of t and of nobody else. */
  function Alone(s: List, t: ThreadId, k: nat): List {
    if k == 0 then s else Step(Alone(s, t, k - 1), t, Continue)
  }

  lemma OneMore(s: List, t: ThreadId, k: nat)
    ensures Alone(s, t, k + 1) == Step(Alone(s, t, k), t, Continue)
  {
  }

  ghost predicate AllIdle(s: List) {
    forall u | u in s.threads :: s.threads[u].at == Idle
  }

  lemma NobodyHolds(s: List, x: Aux, n: NodeId)
    requires Inv(s, x) && AllIdle(s) && n in s.nodes
    ensures s.nodes[n].refs == (if n in x.list then 1 else 0) && (n in s.owned <==> n !in x.list)
  {
    assert NodeOk(s, x, n);
    assert Holders(s.threads, n) == {};
  }

  /** t stands at this position with node n, and these are the contents. */
  ghost predicate Stands(s: List, t: ThreadId, at: Label, n: NodeId, head: Option<NodeId>, owned: set<NodeId>, node: Node) {
    && t in s.threads && s.threads[t].at == at && s.threads[t].node == n && s.head == head && s.owned == owned
    && n in s.nodes && s.nodes[n] == node
  }

  /** Only node n may have changed. */
  ghost predicate Only(s: List, s': List, n: NodeId) {
    n in s'.nodes && s'.nodes == s.nodes[n := s'.nodes[n]]
  }

  /** A lone try_get takes the first node off a list that has one, and finds nothing on an empty list only. */
  lemma LoneGet(s: List, x: Aux, t: ThreadId)
    requires Inv(s, x) && AllIdle(s) && t in s.threads
    ensures var called := Step(s, t, CallTryGet);
            if x.list == [] then
              var s' := Alone(called, t, 1);
              && t in s'.threads && s'.threads[t].at == Idle
              && s'.owned == s.owned && s'.nodes == s.nodes && s'.head == s.head
            else
              var s', n := Alone(called, t, 7), x.list[0];
              && n in s.nodes && n !in s.owned && t in s'.threads && s'.threads[t].at == Idle
              && s'.owned == s.owned + {n} && s'.head == s.nodes[n].next
              && s'.nodes == s.nodes[n := Node(0, s.nodes[n].next)]
  {
    var called := Step(s, t, CallTryGet);
    OneMore(called, t, 0);
    if x.list != [] {
      NobodyHolds(s, x, x.list[0]);
      OneMore(called, t, 1);
      OneMore(called, t, 2);
      OneMore(called, t, 3);
      OneMore(called, t, 4);
      OneMore(called, t, 5);
      OneMore(called, t, 6);
      LoneFirst(called, Alone(called, t, 1), Alone(called, t, 2), Alone(called, t, 3), Alone(called, t, 4),
                Alone(called, t, 5), Alone(called, t, 6), Alone(called, t, 7), t, x.list[0], s.nodes[x.list[0]].next);
    }
  }

  lemma LoneFirst(s: List, s1: List, s2: List, s3: List, s4: List, s5: List, s6: List, s7: List,
                  t: ThreadId, n: NodeId, next: Option<NodeId>)
    requires t in s.threads && s.threads[t].at == GetLoadHead && s.head == Some(n)
    requires n in s.nodes && s.nodes[n] == Node(1, next)
    requires s1 == Step(s, t, Continue) && s2 == Step(s1, t, Continue) && s3 == Step(s2, t, Continue)
    requires s4 == Step(s3, t, Continue) && s5 == Step(s4, t, Continue)
    requires s6 == Step(s5, t, Continue) && s7 == Step(s6, t, Continue)
    ensures Stands(s7, t, Idle, n, next, s.owned + {n}, Node(0, next)) && Only(s, s7, n)
  {
    Refers(s, s1, s2, s3, t, n, next);
    Pops(s3, s4, s5, t, n, next);
    Hands(s5, s6, s7, t, n, next);
  }

  lemma Refers(s: List, s1: List, s2: List, s3: List, t: ThreadId, n: NodeId, next: Option<NodeId>)
    requires t in s.threads && s.threads[t].at == GetLoadHead && s.head == Some(n)
    requires n in s.nodes && s.nodes[n] == Node(1, next)
    requires s1 == Step(s, t, Continue) && s2 == Step(s1, t, Continue) && s3 == Step(s2, t, Continue)
    ensures Stands(s3, t, GetLoadNext, n, Some(n), s.owned, Node(2, next)) && Only(s, s3, n)
  {
    assert Stands(s1, t, GetLoadRefs, n, Some(n), s.owned, Node(1, next));
    assert Stands(s2, t, GetIncrement, n, Some(n), s.owned, Node(1, next)) && s2.threads[t].seen == 1;
  }

  lemma Pops(s: List, s1: List, s2: List, t: ThreadId, n: NodeId, next: Option<NodeId>)
    requires Stands(s, t, GetLoadNext, n, Some(n), s.owned, Node(2, next))
    requires s1 == Step(s, t, Continue) && s2 == Step(s1, t, Continue)
    ensures Stands(s2, t, GetAssert, n, next, s.owned, Node(2, next)) && s2.nodes == s.nodes
  {
    assert Stands(s1, t, GetCas, n, Some(n), s.owned, Node(2, next)) && s1.threads[t].ptr == next && s1.nodes == s.nodes;
  }

  lemma Hands(s: List, s1: List, s2: List, t: ThreadId, n: NodeId, next: Option<NodeId>)
    requires Stands(s, t, GetAssert, n, next, s.owned, Node(2, next))
    requires s1 == Step(s, t, Continue) && s2 == Step(s1, t, Continue)
    ensures Stands(s2, t, Idle, n, next, s.owned + {n}, Node(0, next)) && Only(s, s2, n)
  {
    assert Stands(s1, t, GetFinish, n, next, s.owned, Node(2, next)) && s1.nodes == s.nodes;
  }

  /** A lone add puts the node in front of the list. */
  lemma LoneAdd(s: List, x: Aux, t: ThreadId, n: NodeId)
    requires Inv(s, x) && AllIdle(s) && t in s.threads && n in s.owned
    ensures var s' := Alone(Step(s, t, CallAdd(n)), t, 5);
            && t in s'.threads && s'.threads[t].at == Idle
            && s'.owned == s.owned - {n} && s'.head == Some(n)
            && s'.nodes == s.nodes[n := Node(1, s.head)]
  {
    assert n in s.nodes;
    NobodyHolds(s, x, n);
    var called := Step(s, t, CallAdd(n));
    OneMore(called, t, 0);
    OneMore(called, t, 1);
    OneMore(called, t, 2);
    OneMore(called, t, 3);
    OneMore(called, t, 4);
    LoneLast(called, Alone(called, t, 1), Alone(called, t, 2), Alone(called, t, 3), Alone(called, t, 4),
             Alone(called, t, 5), t, n, s.head);
  }

  lemma LoneLast(s: List, s1: List, s2: List, s3: List, s4: List, s5: List, t: ThreadId, n: NodeId, head: Option<NodeId>)
    requires t in s.threads && s.threads[t].at == AddFlag && s.threads[t].node == n && s.head == head
    requires n in s.nodes && s.nodes[n].refs == 0
    requires s1 == Step(s, t, Continue) && s2 == Step(s1, t, Continue) && s3 == Step(s2, t, Continue)
    requires s4 == Step(s3, t, Continue) && s5 == Step(s4, t, Continue)
    ensures Stands(s5, t, Idle, n, Some(n), s.owned, Node(1, head)) && Only(s, s5, n)
  {
    Flags(s, s1, s2, t, n, head);
    Links(s2, s3, s4, s5, t, n, head);
  }

  lemma Flags(s: List, s1: List, s2: List, t: ThreadId, n: NodeId, head: Option<NodeId>)
    requires t in s.threads && s.threads[t].at == AddFlag && s.threads[t].node == n && s.head == head
    requires n in s.nodes && s.nodes[n].refs == 0
    requires s1 == Step(s, t, Continue) && s2 == Step(s1, t, Continue)
    ensures Stands(s2, t, KnownSetNext, n, head, s.owned, Node(SHOULD_BE_ON_FREELIST, s.nodes[n].next)) && Only(s, s2, n)
    ensures s2.threads[t].ptr == head && s2.threads[t].k == ToCaller
  {
    assert Stands(s1, t, KnownLoadHead, n, head, s.owned, Node(SHOULD_BE_ON_FREELIST, s.nodes[n].next));
  }

  lemma Links(s: List, s1: List, s2: List, s3: List, t: ThreadId, n: NodeId, head: Option<NodeId>)
    requires t in s.threads && s.threads[t].at == KnownSetNext && s.threads[t].node == n && s.head == head
    requires n in s.nodes && s.threads[t].ptr == head && s.threads[t].k == ToCaller
    requires s1 == Step(s, t, Continue) && s2 == Step(s1, t, Continue) && s3 == Step(s2, t, Continue)
    ensures Stands(s3, t, Idle, n, Some(n), s.owned, Node(1, head)) && Only(s, s3, n)
  {
    assert s1.threads[t].at == KnownSetRefs && s1.threads[t].node == n && s1.nodes[n].next == head;
    assert Stands(s2, t, KnownCas, n, head, s.owned, Node(1, head)) && s2.threads[t].ptr == head;
  }
}
