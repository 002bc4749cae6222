/**
 * The parts of an implicit producer put together: the queue of module ImplicitQueue with the ring of
 * module BlockIndex in the place of its map from bases to blocks, and the list of module FreeList in
 * the place of its set of free blocks (deflect/moodycamel/concurrentqueue.h).
 *
 * `q.index` and `q.free` are written but never read here: a consumer takes its block from the entry
 * that it finds in the ring, and the producer its blocks from the list, or new ones.
 */
module QueueOnRing {
  import opened Common
  import T = Tickets
  import Q = ImplicitQueue
  import B = BlockIndex
  import F = FreeList

  const BLOCK_SIZE: nat := 32

  /** held: the index entry each consumer has a pointer to. */
  datatype State = State(q: Q.Queue, ring: B.Index, list: F.List, held: map<ThreadId, B.EntryId>)

  datatype Action =
    | Call(caller: ThreadId, bulk: bool, max: nat)
    | Enqueue(element: Q.Element)
    | Produce(made: Option<Q.BlockId>)         // made: a new block, when the producer needs one
    | Run(runner: ThreadId)

  /** The threads of the free list: the producer, and the consumers. */
  const PRODUCER: ThreadId := 0

  function Me(t: ThreadId): ThreadId {
    t + 1
  }

  function ListLabel(s: State, t: ThreadId): F.Label {
    if t in s.list.threads then s.list.threads[t].at else F.Idle
  }

  function ListNode(s: State, t: ThreadId): Q.BlockId {
    if t in s.list.threads then s.list.threads[t].node else 0
  }

  function RingLabel(s: State, t: ThreadId): B.ReaderLabel {
    if t in s.ring.readers then s.ring.readers[t].at else B.Idle
  }

  function Held(s: State, t: ThreadId): B.EntryId {
    if t in s.held then s.held[t] else 0
  }

  function Unit(i: nat): nat {
    i / BLOCK_SIZE
  }

  /** The unit of the last index a consumer has claimed. */
  function LastUnit(r: Q.Reader): nat {
    if r.stop == 0 then 0 else Unit(r.stop - 1)
  }

  predicate Enabled(s: State, a: Action) {
    match a
    case Call(t, bulk, max) => Q.Enabled(s.q, Q.Call(t, bulk, max)) && ListLabel(s, Me(t)) == F.Idle
    case Enqueue(e) => Q.Enabled(s.q, Q.Enqueue(e))
    case Produce(made) =>
      && s.q.producer.at != Q.Ready
      && (made.Some? ==> made.value !in s.list.nodes)
      && (s.ring.producer.at == B.Grow ==> |s.ring.rings| <= B.MAX_LEVEL)
    case Run(t) => t in s.q.readers && (ListLabel(s, Me(t)) != F.Idle || T.Enabled(s.q.ix, T.Continue(t)))
  }

  /** The operation of the queue that a step is, if any. */
  function QueueAction(s: State, a: Action): Option<Q.Action> {
    match a
    case Call(t, bulk, max) => Some(Q.Call(t, bulk, max))
    case Enqueue(e) => Some(Q.Enqueue(e))
    case Produce(made) =>
      (match s.q.producer.at
       case InsertEntry => if s.ring.producer.at == B.Decide then Some(Q.Produce(0)) else None
       case Requisition =>
         if ListLabel(s, PRODUCER) == F.GetFinish then Some(Q.Produce(ListNode(s, PRODUCER)))
         else if ListLabel(s, PRODUCER) == F.Idle && made.Some? then Some(Q.Produce(made.value)) else None
       case StoreEntry => if s.ring.producer.at == B.StoreValue then Some(Q.Produce(0)) else None
       case _ => Some(Q.Produce(0)))
    case Run(t) =>
      if t !in s.q.readers || ListLabel(s, Me(t)) != F.Idle then None
      else if s.q.readers[t].at == Q.Load && RingLabel(s, t) != B.Found then None
      else Some(Q.Run(t))
  }

  /** The operation of the ring. */
  function RingAction(s: State, a: Action): Option<B.Action> {
    match a
    case Call(_, _, _) => None
    case Enqueue(_) => None
    case Produce(_) =>
      (match s.q.producer.at
       case InsertEntry =>
         if s.ring.producer.at == B.Ready then Some(B.Insert)
         else if s.ring.producer.at == B.Decide then None else Some(B.Produce(true, 0))
       case StoreEntry => Some(B.Produce(true, s.q.producer.block))
       case _ => None)
    case Run(t) =>
      if t !in s.q.readers || ListLabel(s, Me(t)) != F.Idle then None else
      var r := s.q.readers[t];
      match r.at
      case Lookup => if RingLabel(s, t) == B.Idle then Some(B.LookUp(t, Unit(r.pos), LastUnit(r))) else None
      case Load => if RingLabel(s, t) == B.Found then None else Some(B.Read(t))
      case Move => if r.pos + 1 == Q.End(r) then Some(B.Read(t)) else None   // it keeps the entry, and goes on
      case Clear => Some(B.Retire(Held(s, t)))
      case _ => None
  }

  /** The operation of the free list, and its thread. */
  function ListAction(s: State, a: Action): Option<(ThreadId, F.Action)> {
    match a
    case Call(_, _, _) => None
    case Enqueue(_) => None
    case Produce(made) =>
      if s.q.producer.at != Q.Requisition then None
      else if ListLabel(s, PRODUCER) != F.Idle then Some((PRODUCER, F.Continue))
      else if made.Some? then Some((PRODUCER, F.Allocate(made.value))) else Some((PRODUCER, F.CallTryGet))
    case Run(t) =>
      if ListLabel(s, Me(t)) != F.Idle then Some((Me(t), F.Continue))
      else if t in s.q.readers && s.q.readers[t].at == Q.Release then Some((Me(t), F.CallAdd(s.q.readers[t].block)))
      else None
  }

  /** A consumer takes its block from the entry it has found. */
  predicate Loads(s: State, a: Action) {
    && a.Run? && a.runner in s.q.readers && s.q.readers[a.runner].at == Q.Load
    && ListLabel(s, Me(a.runner)) == F.Idle && RingLabel(s, a.runner) == B.Found
  }

  function EntryFound(s: State, t: ThreadId): B.EntryId {
    if t in s.ring.readers then B.SlotAt(B.RingAt(s.ring, s.ring.readers[t].ring), s.ring.readers[t].slot) else 0
  }

  function BlockFound(s: State, t: ThreadId): Q.BlockId {
    var value := B.EntryAt(s.ring, EntryFound(s, t)).value;
    if value.Some? then value.value else 0
  }

  function QueueStep(s: State, a: Action): Q.Queue {
    if Loads(s, a) then
      Q.SetReader(s.q, a.runner, s.q.readers[a.runner].(at := Q.Move, block := BlockFound(s, a.runner)))
    else if QueueAction(s, a).Some? then Q.Step(s.q, QueueAction(s, a).value) else s.q
  }

  function RingStep(s: State, a: Action): B.Index {
    if RingAction(s, a).Some? then B.Step(s.ring, RingAction(s, a).value) else s.ring
  }

  function ListStep(s: State, a: Action): F.List {
    if ListAction(s, a).Some? then F.Step(s.list, ListAction(s, a).value.0, ListAction(s, a).value.1) else s.list
  }

  function Step(s: State, a: Action): State {
    if !Enabled(s, a) then s
    else State(QueueStep(s, a), RingStep(s, a), ListStep(s, a),
               if Loads(s, a) then s.held[a.runner := EntryFound(s, a.runner)] else s.held)
  }

  // ---------------------------------------------------------------------------------------
  // Bookkeeping
  // ---------------------------------------------------------------------------------------

  datatype Aux = Aux(q: Q.Aux, ring: B.Aux, list: F.Aux)

  function AuxStep(s: State, x: Aux, a: Action): Aux {
    if !Enabled(s, a) then x
    else Aux(if QueueAction(s, a).Some? then Q.AuxStep(s.q, x.q, QueueAction(s, a).value) else x.q,
             if RingAction(s, a).Some? then B.AuxStep(s.ring, x.ring, RingAction(s, a).value) else x.ring,
             if ListAction(s, a).Some?
             then F.AuxStep(s.list, x.list, ListAction(s, a).value.0, ListAction(s, a).value.1) else x.list)
  }

  /** Entry e holds block k for unit u. */
  ghost predicate Bears(ring: B.Index, rx: B.Aux, e: B.EntryId, u: nat, k: Q.BlockId) {
    B.Holds(ring, rx.units, e, u) && ring.entries[e].value == Some(k)
  }

  ghost predicate Borne(ring: B.Index, rx: B.Aux, u: nat, k: Q.BlockId) {
    exists e :: Bears(ring, rx, e, u, k)
  }

  /** The ring holds what the map holds, and nothing else. */
  ghost predicate RingMatch(q: Q.Queue, ring: B.Index, rx: B.Aux) {
    && (forall b {:trigger q.index[b]} | b in q.index && q.index[b].Some? ::
          b % BLOCK_SIZE == 0 && Borne(ring, rx, b / BLOCK_SIZE, q.index[b].value))
    && (forall e: nat, u: nat {:trigger B.Holds(ring, rx.units, e, u)} :: B.Holds(ring, rx.units, e, u) ==>
          BLOCK_SIZE * u in q.index && q.index[BLOCK_SIZE * u] == ring.entries[e].value)
  }

  /** The producer is at the same point in both. */
  ghost predicate PhaseMatch(q: Q.Queue, ring: B.Index) {
    var p, at, u := q.producer, ring.producer.at, Unit(q.ix.tail);
    match p.at
    case InsertEntry =>
      && at in {B.Ready, B.Check, B.Grow, B.StoreKey, B.StoreTail, B.Decide}
      && ring.next == u + if at == B.Decide then 1 else 0
    case Requisition => at == B.Decide && ring.next == u + 1
    case Reset => at == B.Decide && ring.next == u + 1
    case StoreEntry =>
      (at == B.Decide || (at == B.StoreValue && ring.producer.value == Some(p.block))) && ring.next == u + 1
    case CheckHead => at == B.Ready && ring.next == u
    case Ready => at == B.Ready && ring.next == u + if q.ix.tail % BLOCK_SIZE == 0 then 0 else 1
    case _ => at == B.Ready && ring.next == u + 1
  }

  /** A consumer that is in the ring at the unit of its next index. */
  predicate Follows(me: Q.Reader, r: B.Reader) {
    r.unit == Unit(me.pos) && r.last == LastUnit(me)
  }

  predicate MovedOn(me: Q.Reader, r: B.Reader) {
    if me.pos == me.stop then r.at == B.Idle else r.at == B.Found && Follows(me, r)
  }

  ghost predicate HeldOk(s: State, rx: B.Aux, t: ThreadId)
    requires t in s.q.readers
  {
    t in s.held && s.held[t] < |rx.units| && rx.units[s.held[t]] == Some(s.q.readers[t].base / BLOCK_SIZE)
  }

  ghost predicate ReaderMatch(s: State, rx: B.Aux, t: ThreadId)
    requires t in s.q.readers && t in s.ring.readers
  {
    var me, r := s.q.readers[t], s.ring.readers[t];
    match me.at
    case Waiting => r.at == B.Idle
    case Lookup => r.at == B.Idle || (r.at == B.Found && Follows(me, r))
    case Load => r.at != B.Idle && Follows(me, r)
    case Move => r.at == B.Found && Follows(me, r) && HeldOk(s, rx, t)
    case Count => MovedOn(me, r) && HeldOk(s, rx, t)
    case Clear => MovedOn(me, r) && HeldOk(s, rx, t)
    case Release => MovedOn(me, r)
  }

  /** Consumers only ever add. */
  predicate Adds(th: F.Thread) {
    || th.at == F.Idle || th.at == F.AddFlag
    || (th.at in {F.KnownLoadHead, F.KnownSetNext, F.KnownSetRefs, F.KnownCas, F.KnownRetry} && th.k == F.ToCaller)
  }

  /** What was given back and not handed out again is free. */
  ghost predicate ListMatch(q: Q.Queue, list: F.List) {
    && list.nodes.Keys == q.blocks.Keys
    && (forall k {:trigger k in q.free} {:trigger k in list.owned} :: k in q.free <==> k in list.nodes && k !in list.owned)
    && PRODUCER in list.threads && (q.producer.at != Q.Requisition ==> list.threads[PRODUCER].at == F.Idle)
    && (forall t {:trigger t in q.readers} | t in q.readers :: Me(t) in list.threads && Adds(list.threads[Me(t)]))
  }

  ghost predicate Coupled(s: State, x: Aux) {
    && s.ring.readers.Keys == s.q.readers.Keys
    && RingMatch(s.q, s.ring, x.ring)
    && PhaseMatch(s.q, s.ring)
    && (forall t {:trigger ReaderMatch(s, x.ring, t)} | t in s.q.readers :: ReaderMatch(s, x.ring, t))
    && ListMatch(s.q, s.list)
  }

  ghost predicate Inv(s: State, x: Aux) {
    Q.Inv(s.q, x.q) && B.Inv(s.ring, x.ring) && F.Inv(s.list, x.list) && Coupled(s, x)
  }

  // ---------------------------------------------------------------------------------------
  // The ring
  // ---------------------------------------------------------------------------------------

  /** The same entries hold the same blocks for the same units. */
  ghost predicate SameBorne(ring: B.Index, rx: B.Aux, ring': B.Index, rx': B.Aux) {
    forall e: nat, u: nat {:trigger B.Holds(ring', rx'.units, e, u)} {:trigger B.Holds(ring, rx.units, e, u)} ::
      && (B.Holds(ring', rx'.units, e, u) <==> B.Holds(ring, rx.units, e, u))
      && (B.Holds(ring, rx.units, e, u) ==> ring'.entries[e].value == ring.entries[e].value)
  }

  /** The operations that store no block and clear none. */
  lemma RingQuiet(ring: B.Index, rx: B.Aux, a: B.Action)
    requires B.Inv(ring, rx) && B.Enabled(ring, rx.units, a) && !a.Retire?
    requires a.Produce? ==> ring.producer.at in {B.Check, B.Grow, B.StoreKey, B.StoreTail, B.Decide}
    ensures SameBorne(ring, rx, B.Step(ring, a), B.AuxStep(ring, rx, a))
  {
    var ring', rx' := B.Step(ring, a), B.AuxStep(ring, rx, a);
    forall e: nat, u: nat
      ensures B.Holds(ring', rx'.units, e, u) <==> B.Holds(ring, rx.units, e, u)
      ensures B.Holds(ring, rx.units, e, u) ==> ring'.entries[e].value == ring.entries[e].value {
      if e < |ring.entries| { assert B.EntryOk(ring, rx, e); }
    }
  }

  lemma SameMatch(q: Q.Queue, ring: B.Index, rx: B.Aux, q': Q.Queue, ring': B.Index, rx': B.Aux)
    requires RingMatch(q, ring, rx) && SameBorne(ring, rx, ring', rx') && q'.index == q.index
    ensures RingMatch(q', ring', rx')
  {
    forall b | b in q'.index && q'.index[b].Some?
      ensures b % BLOCK_SIZE == 0 && Borne(ring', rx', b / BLOCK_SIZE, q'.index[b].value) {
      assert q.index[b].Some?;
      var e :| Bears(ring, rx, e, b / BLOCK_SIZE, q.index[b].value);
      assert Bears(ring', rx', e, b / BLOCK_SIZE, q'.index[b].value);
    }
  }

  /** An entry with a block stays the entry of its unit. */
  ghost predicate UnitsKept(ring: B.Index, rx: B.Aux, rx': B.Aux) {
    forall e: nat {:trigger rx.units[e]} {:trigger rx'.units[e]} ::
      e < |rx.units| && e < |ring.entries| && ring.entries[e].value.Some? ==> e < |rx'.units| && rx'.units[e] == rx.units[e]
  }

  lemma UnitsStay(ring: B.Index, rx: B.Aux, a: B.Action)
    requires B.Inv(ring, rx) && B.Enabled(ring, rx.units, a)
    ensures UnitsKept(ring, rx, B.AuxStep(ring, rx, a))
  {
  }

  /** How the producer goes through the ring when allocation succeeds. */
  lemma RingMoves(ring: B.Index, k: Q.BlockId)
    requires ring.producer.at == B.Grow ==> |ring.rings| <= B.MAX_LEVEL
    ensures var p, ring' := ring.producer, B.Step(ring, B.Produce(true, k));
            && ring'.readers == ring.readers
            && ring'.next == ring.next + (if p.at == B.StoreTail then 1 else 0) - (if p.at == B.RewindTail && ring.next > 0 then 1 else 0)
            && (p.at == B.Check ==> ring'.producer.at in {B.StoreKey, B.Grow})
            && (p.at == B.Grow ==> ring'.producer.at == B.StoreKey)
            && (p.at == B.StoreKey ==> ring'.producer.at == B.StoreTail)
            && (p.at == B.StoreTail ==> ring'.producer.at == B.Decide)
            && (p.at == B.Decide ==> ring'.producer.at == B.StoreValue && ring'.producer.value == Some(k))
            && (p.at == B.StoreValue ==> ring'.producer.at == B.Ready)
  {
  }

  /** The pointer a consumer keeps leads to the block it works on. */
  lemma HeldBears(s: State, x: Aux, t: ThreadId)
    requires Inv(s, x) && t in s.q.readers && s.q.readers[t].at in {Q.Move, Q.Count, Q.Clear}
    ensures t in s.held && s.q.readers[t].base % BLOCK_SIZE == 0
    ensures Bears(s.ring, x.ring, s.held[t], s.q.readers[t].base / BLOCK_SIZE, s.q.readers[t].block)
  {
    var me := s.q.readers[t];
    assert ReaderMatch(s, x.ring, t) && Q.ReaderOk(s.q, x.q, t);
    assert s.q.index[me.base] == Some(me.block);
    assert Borne(s.ring, x.ring, me.base / BLOCK_SIZE, me.block);
    var e :| Bears(s.ring, x.ring, e, me.base / BLOCK_SIZE, me.block);
    B.OneEntry(s.ring, x.ring, e, s.held[t]);
  }

  // ---------------------------------------------------------------------------------------
  // The consumers
  // ---------------------------------------------------------------------------------------

  /** Consumers other than the one that runs, if any does, are where they were. */
  ghost predicate OthersRest(s: State, s': State, runner: Option<ThreadId>) {
    && s'.q.readers.Keys == s.q.readers.Keys && s'.ring.readers.Keys == s.ring.readers.Keys
    && forall u {:trigger s'.q.readers[u]} {:trigger s'.ring.readers[u]} |
         u in s.q.readers && u in s.ring.readers && runner != Some(u) ::
           && s'.q.readers[u] == s.q.readers[u] && s'.ring.readers[u] == s.ring.readers[u]
           && (u in s.held ==> u in s'.held && s'.held[u] == s.held[u])
  }

  lemma ReadersKept(s: State, x: Aux, s': State, rx': B.Aux, runner: Option<ThreadId>)
    requires Inv(s, x) && OthersRest(s, s', runner) && UnitsKept(s.ring, x.ring, rx')
    requires runner.Some? && runner.value in s.q.readers ==> ReaderMatch(s', rx', runner.value)
    ensures forall t {:trigger ReaderMatch(s', rx', t)} | t in s'.q.readers :: ReaderMatch(s', rx', t)
  {
    forall t | t in s'.q.readers ensures ReaderMatch(s', rx', t) {
      if runner != Some(t) {
        assert ReaderMatch(s, x.ring, t);
        if s.q.readers[t].at in {Q.Move, Q.Count, Q.Clear} { HeldBears(s, x, t); }
      }
    }
  }

  /** A unit between those of two indices has an index between them. */
  lemma IndexIn(pos: nat, stop: nat, u: nat) returns (i: nat)
    requires pos < stop && Unit(pos) <= u <= Unit(stop - 1)
    ensures pos <= i < stop && BLOCK_SIZE * u <= i < BLOCK_SIZE * u + BLOCK_SIZE && Q.BaseOf(i) == BLOCK_SIZE * u
  {
    i := if u == Unit(pos) then pos else BLOCK_SIZE * u;
  }

  lemma UnitOf(u: nat)
    ensures BLOCK_SIZE * u / BLOCK_SIZE == u && BLOCK_SIZE * u % BLOCK_SIZE == 0
  {
  }

  lemma UnitOfBase(b: nat)
    requires b % BLOCK_SIZE == 0
    ensures BLOCK_SIZE * (b / BLOCK_SIZE) == b
  {
  }

  /** What a consumer still has to take out lies in blocks that the ring holds. */
  lemma AheadIsLive(q: Q.Queue, qx: Q.Aux, ring: B.Index, rx: B.Aux, t: ThreadId, u: nat)
    requires Q.Inv(q, qx) && RingMatch(q, ring, rx) && t in q.readers && q.readers[t].at == Q.Lookup
    requires Unit(q.readers[t].pos) <= u <= LastUnit(q.readers[t])
    ensures B.Live(ring, rx.units, u)
  {
    var me := q.readers[t];
    assert Q.ReaderOk(q, qx, t);
    var i := IndexIn(me.pos, me.stop, u);
    assert Q.SlotOk(q, qx, i);
    UnitOf(u);
    assert Borne(ring, rx, u, q.index[BLOCK_SIZE * u].value);
    var e :| Bears(ring, rx, e, u, q.index[BLOCK_SIZE * u].value);
    assert B.Holds(ring, rx.units, e, u);
  }

  /** A block that is empty is in no consumer's way any more. */
  lemma EmptyIsBehind(q: Q.Queue, qx: Q.Aux, t: ThreadId, u: ThreadId)
    requires Q.Inv(q, qx) && t in q.readers && q.readers[t].at == Q.Clear && u in q.readers
    requires q.readers[u].at != Q.Waiting && q.readers[u].pos < q.readers[u].stop
    ensures !(Unit(q.readers[u].pos) <= q.readers[t].base / BLOCK_SIZE <= LastUnit(q.readers[u]))
  {
    var b, other := q.readers[t].base, q.readers[u];
    assert Q.ReaderOk(q, qx, t) && Q.ReaderOk(q, qx, u);
    UnitOfBase(b);
    if Unit(other.pos) <= b / BLOCK_SIZE <= LastUnit(other) {
      var i := IndexIn(other.pos, other.stop, b / BLOCK_SIZE);
      CountedIsOut(q, qx, t, u, i);
    }
  }

  lemma CountedIsOut(q: Q.Queue, qx: Q.Aux, t: ThreadId, u: ThreadId, i: nat)
    requires Q.Inv(q, qx) && t in q.readers && q.readers[t].at == Q.Clear && u in q.readers && q.readers[u].at != Q.Waiting
    requires q.readers[t].base <= i < q.readers[t].base + BLOCK_SIZE
    ensures !(q.readers[u].pos <= i < q.readers[u].stop)
  {
    assert Q.ReaderOk(q, qx, t) && Q.ReaderOk(q, qx, u);
    assert i in qx.counted;
  }

  /** A consumer that still needs something of the ring has an index to take. */
  lemma NeedsAhead(s: State, x: Aux, u: ThreadId)
    requires Inv(s, x) && u in s.q.readers && s.ring.readers[u].at != B.Idle
    ensures s.q.readers[u].at != Q.Waiting && s.q.readers[u].pos < s.q.readers[u].stop
    ensures Follows(s.q.readers[u], s.ring.readers[u])
  {
    assert ReaderMatch(s, x.ring, u) && Q.ReaderOk(s.q, x.q, u);
  }

  lemma RingEnabled(s: State, x: Aux, a: Action)
    requires Inv(s, x) && Enabled(s, a) && RingAction(s, a).Some?
    ensures B.Enabled(s.ring, x.ring.units, RingAction(s, a).value)
  {
    if a.Run? {
      assert ReaderMatch(s, x.ring, a.runner);
      if s.q.readers[a.runner].at == Q.Lookup { LookUpEnabled(s, x, a.runner); }
      if s.q.readers[a.runner].at == Q.Clear { RetireEnabled(s, x, a.runner); }
    }
  }

  lemma LookUpEnabled(s: State, x: Aux, t: ThreadId)
    requires Inv(s, x) && t in s.q.readers && s.q.readers[t].at == Q.Lookup
    ensures var me := s.q.readers[t];
            && Unit(me.pos) <= LastUnit(me)
            && forall u | Unit(me.pos) <= u <= LastUnit(me) :: B.Live(s.ring, x.ring.units, u)
  {
    var me := s.q.readers[t];
    assert Q.ReaderOk(s.q, x.q, t);
    forall u | Unit(me.pos) <= u <= LastUnit(me) ensures B.Live(s.ring, x.ring.units, u) {
      AheadIsLive(s.q, x.q, s.ring, x.ring, t, u);
    }
  }

  lemma RetireEnabled(s: State, x: Aux, t: ThreadId)
    requires Inv(s, x) && t in s.q.readers && s.q.readers[t].at == Q.Clear
    ensures t in s.held && s.q.readers[t].base % BLOCK_SIZE == 0
    ensures B.Enabled(s.ring, x.ring.units, B.Retire(s.held[t]))
    ensures B.Holds(s.ring, x.ring.units, s.held[t], s.q.readers[t].base / BLOCK_SIZE)
  {
    HeldBears(s, x, t);
    forall u | u in s.ring.readers ensures !B.Needs(s.ring.readers[u], s.q.readers[t].base / BLOCK_SIZE) {
      if s.ring.readers[u].at != B.Idle { NeedsAhead(s, x, u); EmptyIsBehind(s.q, x.q, t, u); }
    }
  }

  lemma FoundHolds(ring: B.Index, rx: B.Aux, t: ThreadId)
    requires B.Inv(ring, rx) && t in ring.readers && ring.readers[t].at == B.Found
    ensures var r := ring.readers[t]; B.Holds(ring, rx.units, B.SlotAt(B.RingAt(ring, r.ring), r.slot), r.unit)
  {
    assert B.ReaderOk(ring, rx, t);
    assert B.Leads(ring, rx, ring.readers[t].ring, ring.readers[t].unit);
  }

  /** The block found in the ring is the one the map has. */
  lemma FoundInMap(s: State, x: Aux, t: ThreadId)
    requires Inv(s, x) && t in s.q.readers && s.q.readers[t].at == Q.Load && RingLabel(s, t) == B.Found
    ensures var u := Unit(s.q.readers[t].pos);
            && B.Holds(s.ring, x.ring.units, EntryFound(s, t), u)
            && BlockFound(s, t) == Q.Load1(s.q, s.q.readers[t].base) && s.q.readers[t].base == BLOCK_SIZE * u
  {
    AtLoad(s, x, t);
    FoundHolds(s.ring, x.ring, t);
    FoundValue(s.q, s.ring, x.ring, EntryFound(s, t), Unit(s.q.readers[t].pos));
  }

  lemma AtLoad(s: State, x: Aux, t: ThreadId)
    requires Inv(s, x) && t in s.q.readers && s.q.readers[t].at == Q.Load
    ensures t in s.ring.readers && s.ring.readers[t].unit == Unit(s.q.readers[t].pos)
    ensures s.q.readers[t].base == BLOCK_SIZE * Unit(s.q.readers[t].pos)
  {
    assert ReaderMatch(s, x.ring, t) && Q.ReaderOk(s.q, x.q, t);
  }

  lemma FoundValue(q: Q.Queue, ring: B.Index, rx: B.Aux, e: B.EntryId, u: nat)
    requires RingMatch(q, ring, rx) && B.Holds(ring, rx.units, e, u)
    ensures B.EntryAt(ring, e).value == Some(Q.Load1(q, BLOCK_SIZE * u))
  {
  }

  /** So a step of the whole is a step of the queue, or leaves it alone. */
  lemma QueueRefined(s: State, x: Aux, a: Action)
    requires Inv(s, x) && Enabled(s, a)
    ensures QueueStep(s, a) == if QueueAction(s, a).Some? then Q.Step(s.q, QueueAction(s, a).value) else s.q
  {
    if Loads(s, a) {
      FoundInMap(s, x, a.runner);
      LoadStep(s.q, a.runner);
    }
  }

  lemma LoadStep(q: Q.Queue, t: ThreadId)
    requires t in q.readers && q.readers[t].at == Q.Load && T.Enabled(q.ix, T.Continue(t))
    ensures Q.Step(q, Q.Run(t)) == Q.SetReader(q, t, q.readers[t].(at := Q.Move, block := Q.Load1(q, q.readers[t].base)))
  {
  }

  // ---------------------------------------------------------------------------------------
  // The ring follows the map
  // ---------------------------------------------------------------------------------------

  /** The entry just keyed holds no block: the map has none for it either. */
  lemma InsertMatch(q: Q.Queue, ring: B.Index, rx: B.Aux, q': Q.Queue)
    requires B.Inv(ring, rx) && RingMatch(q, ring, rx) && ring.producer.at == B.Decide
    requires q'.index == q.index[BLOCK_SIZE * (ring.next - 1) := None]
    ensures RingMatch(q', ring, rx)
  {
    forall e: nat, u: nat | B.Holds(ring, rx.units, e, u)
      ensures BLOCK_SIZE * u in q'.index && q'.index[BLOCK_SIZE * u] == ring.entries[e].value {
      if u == ring.next - 1 { B.OneEntry(ring, rx, e, ring.producer.entry); }
    }
    assert forall b | b in q'.index && q'.index[b].Some? :: q.index[b] == q'.index[b];
  }

  /** A block is stored for the last unit in both. */
  lemma StoreMatch(q: Q.Queue, ring: B.Index, rx: B.Aux, q': Q.Queue, k: Q.BlockId)
    requires B.Inv(ring, rx) && RingMatch(q, ring, rx) && ring.producer.at == B.StoreValue && ring.producer.value == Some(k)
    requires q'.index == q.index[BLOCK_SIZE * (ring.next - 1) := Some(k)]
    ensures RingMatch(q', B.Step(ring, B.Produce(true, k)), B.AuxStep(ring, rx, B.Produce(true, k)))
  {
    var ring', rx' := B.Step(ring, B.Produce(true, k)), B.AuxStep(ring, rx, B.Produce(true, k));
    var last, entry := ring.next - 1, ring.producer.entry;
    UnitOf(last);
    assert Bears(ring', rx', entry, last, k);
    forall b | b in q'.index && q'.index[b].Some?
      ensures b % BLOCK_SIZE == 0 && Borne(ring', rx', b / BLOCK_SIZE, q'.index[b].value) {
      if b != BLOCK_SIZE * last {
        var e :| Bears(ring, rx, e, b / BLOCK_SIZE, q.index[b].value);
        assert Bears(ring', rx', e, b / BLOCK_SIZE, q'.index[b].value);
      }
    }
    forall e: nat, u: nat | B.Holds(ring', rx'.units, e, u)
      ensures BLOCK_SIZE * u in q'.index && q'.index[BLOCK_SIZE * u] == ring'.entries[e].value {
      if e != entry {
        assert B.Holds(ring, rx.units, e, u);
        if u == last { B.OneEntry(ring, rx, e, entry); }
      }
    }
  }

  /** A block is taken out of both. */
  lemma RetireMatch(q: Q.Queue, ring: B.Index, rx: B.Aux, q': Q.Queue, e0: B.EntryId, base: nat)
    requires B.Inv(ring, rx) && RingMatch(q, ring, rx) && base % BLOCK_SIZE == 0
    requires B.Holds(ring, rx.units, e0, base / BLOCK_SIZE) && q'.index == q.index[base := None]
    ensures RingMatch(q', B.Step(ring, B.Retire(e0)), rx)
  {
    var ring' := B.Step(ring, B.Retire(e0));
    forall b | b in q'.index && q'.index[b].Some?
      ensures b % BLOCK_SIZE == 0 && Borne(ring', rx, b / BLOCK_SIZE, q'.index[b].value) {
      assert q.index[b] == q'.index[b];
      var e :| Bears(ring, rx, e, b / BLOCK_SIZE, q.index[b].value);
      UnitOfBase(b);
      UnitOfBase(base);
      assert Bears(ring', rx, e, b / BLOCK_SIZE, q'.index[b].value);
    }
    forall e: nat, u: nat | B.Holds(ring', rx.units, e, u)
      ensures BLOCK_SIZE * u in q'.index && q'.index[BLOCK_SIZE * u] == ring'.entries[e].value {
      assert e != e0 && B.Holds(ring, rx.units, e, u);
      UnitOf(u);
      if BLOCK_SIZE * u == base { B.OneEntry(ring, rx, e, e0); }
    }
  }

  /** Which steps touch the map. */
  lemma IndexWrites(q: Q.Queue, a: Q.Action)
    ensures var q' := Q.Step(q, a);
            q'.index ==
            if !Q.Enabled(q, a) then q.index
            else if a.Produce? && q.producer.at == Q.InsertEntry then q.index[q.ix.tail := None]
            else if a.Produce? && q.producer.at == Q.StoreEntry then q.index[q.ix.tail := Some(q.producer.block)]
            else if a.Run? && q.readers[a.runner].at == Q.Clear then q.index[q.readers[a.runner].base := None]
            else q.index
  {
  }

  lemma RingMatched(s: State, x: Aux, a: Action)
    requires Inv(s, x) && Enabled(s, a)
    ensures RingMatch(Step(s, a).q, Step(s, a).ring, AuxStep(s, x, a).ring)
  {
    QueueRefined(s, x, a);
    if RingAction(s, a).Some? { RingEnabled(s, x, a); }
    if a.Run? && s.q.readers[a.runner].at == Q.Clear { RetireEnabled(s, x, a.runner); }
    RingFollows(s, x, a);
  }

  /** The tail is where the steps that write to the map suppose it. */
  ghost predicate TailAligned(q: Q.Queue) {
    q.producer.at in {Q.CheckHead, Q.InsertEntry, Q.StoreEntry} ==> q.ix.tail % BLOCK_SIZE == 0
  }

  lemma RingFollows(s: State, x: Aux, a: Action)
    requires B.Inv(s.ring, x.ring) && RingMatch(s.q, s.ring, x.ring) && PhaseMatch(s.q, s.ring) && TailAligned(s.q)
    requires Enabled(s, a)
    requires QueueStep(s, a) == if QueueAction(s, a).Some? then Q.Step(s.q, QueueAction(s, a).value) else s.q
    requires RingAction(s, a).Some? ==> B.Enabled(s.ring, x.ring.units, RingAction(s, a).value)
    requires a.Run? && s.q.readers[a.runner].at == Q.Clear ==>
               a.runner in s.held && s.q.readers[a.runner].base % BLOCK_SIZE == 0
               && B.Holds(s.ring, x.ring.units, s.held[a.runner], s.q.readers[a.runner].base / BLOCK_SIZE)
    ensures RingMatch(Step(s, a).q, Step(s, a).ring, AuxStep(s, x, a).ring)
  {
    if a.Produce? && s.q.producer.at == Q.InsertEntry && s.ring.producer.at == B.Decide {
      InsertFollows(s, x, a.made);
    } else if a.Produce? && s.q.producer.at == Q.StoreEntry && s.ring.producer.at == B.StoreValue {
      StoreFollows(s, x, a.made);
    } else if a.Run? && ListLabel(s, Me(a.runner)) == F.Idle && s.q.readers[a.runner].at == Q.Clear {
      RetireFollows(s, x, a.runner);
    } else {
      if QueueAction(s, a).Some? { IndexWrites(s.q, QueueAction(s, a).value); }
      QuietMatched(s, x, a);
    }
  }

  lemma InsertFollows(s: State, x: Aux, made: Option<Q.BlockId>)
    requires B.Inv(s.ring, x.ring) && RingMatch(s.q, s.ring, x.ring) && PhaseMatch(s.q, s.ring) && TailAligned(s.q)
    requires Enabled(s, Produce(made)) && s.q.producer.at == Q.InsertEntry && s.ring.producer.at == B.Decide
    ensures RingMatch(Step(s, Produce(made)).q, Step(s, Produce(made)).ring, AuxStep(s, x, Produce(made)).ring)
  {
    UnitOfBase(s.q.ix.tail);
    IndexWrites(s.q, Q.Produce(0));
    InsertMatch(s.q, s.ring, x.ring, Q.Step(s.q, Q.Produce(0)));
  }

  lemma StoreFollows(s: State, x: Aux, made: Option<Q.BlockId>)
    requires B.Inv(s.ring, x.ring) && RingMatch(s.q, s.ring, x.ring) && PhaseMatch(s.q, s.ring) && TailAligned(s.q)
    requires Enabled(s, Produce(made)) && s.q.producer.at == Q.StoreEntry && s.ring.producer.at == B.StoreValue
    ensures RingMatch(Step(s, Produce(made)).q, Step(s, Produce(made)).ring, AuxStep(s, x, Produce(made)).ring)
  {
    UnitOfBase(s.q.ix.tail);
    IndexWrites(s.q, Q.Produce(0));
    StoreMatch(s.q, s.ring, x.ring, Q.Step(s.q, Q.Produce(0)), s.q.producer.block);
  }

  lemma RetireFollows(s: State, x: Aux, t: ThreadId)
    requires B.Inv(s.ring, x.ring) && RingMatch(s.q, s.ring, x.ring)
    requires Enabled(s, Run(t)) && ListLabel(s, Me(t)) == F.Idle && s.q.readers[t].at == Q.Clear
    requires t in s.held && s.q.readers[t].base % BLOCK_SIZE == 0
    requires B.Holds(s.ring, x.ring.units, s.held[t], s.q.readers[t].base / BLOCK_SIZE)
    ensures RingMatch(Step(s, Run(t)).q, Step(s, Run(t)).ring, AuxStep(s, x, Run(t)).ring)
  {
    IndexWrites(s.q, Q.Run(t));
    RetireMatch(s.q, s.ring, x.ring, Q.Step(s.q, Q.Run(t)), s.held[t], s.q.readers[t].base);
  }

  lemma QuietMatched(s: State, x: Aux, a: Action)
    requires B.Inv(s.ring, x.ring) && RingMatch(s.q, s.ring, x.ring) && PhaseMatch(s.q, s.ring)
    requires Enabled(s, a) && Step(s, a).q.index == s.q.index
    requires RingAction(s, a).Some? ==> B.Enabled(s.ring, x.ring.units, RingAction(s, a).value) && !RingAction(s, a).value.Retire?
    requires a.Produce? && s.q.producer.at == Q.StoreEntry ==> s.ring.producer.at == B.Decide
    requires a.Produce? && s.q.producer.at == Q.InsertEntry ==> s.ring.producer.at != B.Decide
    ensures RingMatch(Step(s, a).q, Step(s, a).ring, AuxStep(s, x, a).ring)
  {
    var s', x' := Step(s, a), AuxStep(s, x, a);
    if RingAction(s, a).Some? { RingQuiet(s.ring, x.ring, RingAction(s, a).value); }
    SameMatch(s.q, s.ring, x.ring, s'.q, s'.ring, x'.ring);
  }

  // ---------------------------------------------------------------------------------------
  // Producer and consumers keep step
  // ---------------------------------------------------------------------------------------

  lemma PhaseMatched(s: State, x: Aux, a: Action)
    requires Inv(s, x) && Enabled(s, a)
    ensures PhaseMatch(Step(s, a).q, Step(s, a).ring)
  {
    QueueRefined(s, x, a);
    if a.Produce? && s.q.producer.at == Q.Requisition && QueueAction(s, a).Some? { ObtainsFree(s, x, a.made); }
    PhaseFollows(s, a);
  }

  lemma PhaseFollows(s: State, a: Action)
    requires PhaseMatch(s.q, s.ring) && TailAligned(s.q) && Enabled(s, a)
    requires QueueStep(s, a) == if QueueAction(s, a).Some? then Q.Step(s.q, QueueAction(s, a).value) else s.q
    requires a.Produce? && s.q.producer.at == Q.Requisition && QueueAction(s, a).Some? ==>
               Q.Enabled(s.q, QueueAction(s, a).value)
    ensures PhaseMatch(Step(s, a).q, Step(s, a).ring)
  {
    if a.Produce? {
      ProducePhase(s, a.made);
    } else if a.Run? {
      if QueueAction(s, a).Some? { OnlyProduces(s.q, QueueAction(s, a).value); }
      if RingAction(s, a).Some? { OnlyProducesRing(s.ring, RingAction(s, a).value); }
    } else if a.Enqueue? {
      EnqueuePhase(s.q, s.ring, a.element);
    } else {
      OnlyProduces(s.q, QueueAction(s, a).value);
    }
  }

  /** A block that try_get hands out is free; a new one is new. */
  lemma ObtainsFree(s: State, x: Aux, made: Option<Q.BlockId>)
    requires Inv(s, x) && Enabled(s, Produce(made)) && s.q.producer.at == Q.Requisition
    requires QueueAction(s, Produce(made)).Some?
    ensures Q.Enabled(s.q, QueueAction(s, Produce(made)).value)
  {
    if ListLabel(s, PRODUCER) == F.GetFinish {
      assert F.ThreadOk(s.list, x.list, PRODUCER) && F.NodeOk(s.list, x.list, ListNode(s, PRODUCER));
    }
  }

  lemma OnlyProduces(q: Q.Queue, a: Q.Action)
    requires a.Call? || a.Run?
    ensures Q.Step(q, a).producer == q.producer && Q.Step(q, a).ix.tail == q.ix.tail
  {
  }

  lemma OnlyProducesRing(ring: B.Index, a: B.Action)
    requires a.LookUp? || a.Read? || a.Retire?
    ensures B.Step(ring, a).producer == ring.producer && B.Step(ring, a).next == ring.next
  {
  }

  lemma EnqueuePhase(q: Q.Queue, ring: B.Index, e: Q.Element)
    requires PhaseMatch(q, ring)
    ensures PhaseMatch(Q.Step(q, Q.Enqueue(e)), ring)
  {
  }

  lemma ProducePhase(s: State, made: Option<Q.BlockId>)
    requires PhaseMatch(s.q, s.ring) && Enabled(s, Produce(made))
    requires s.q.producer.at == Q.Requisition && QueueAction(s, Produce(made)).Some? ==>
               Q.Enabled(s.q, QueueAction(s, Produce(made)).value)
    requires TailAligned(s.q)
    ensures PhaseMatch(Step(s, Produce(made)).q, Step(s, Produce(made)).ring)
  {
    match s.q.producer.at {
      case InsertEntry => InsertPhase(s, made);
      case StoreEntry => StorePhase(s, made);
      case _ =>
    }
  }

  lemma InsertPhase(s: State, made: Option<Q.BlockId>)
    requires PhaseMatch(s.q, s.ring) && Enabled(s, Produce(made)) && TailAligned(s.q) && s.q.producer.at == Q.InsertEntry
    ensures PhaseMatch(Step(s, Produce(made)).q, Step(s, Produce(made)).ring)
  {
    if s.ring.producer.at !in {B.Ready, B.Decide} { RingMoves(s.ring, 0); }
  }

  lemma StorePhase(s: State, made: Option<Q.BlockId>)
    requires PhaseMatch(s.q, s.ring) && Enabled(s, Produce(made)) && TailAligned(s.q) && s.q.producer.at == Q.StoreEntry
    ensures PhaseMatch(Step(s, Produce(made)).q, Step(s, Produce(made)).ring)
  {
    RingMoves(s.ring, s.q.producer.block);
  }

  function Runner(a: Action): Option<ThreadId> {
    match a
    case Call(t, _, _) => Some(t)
    case Run(t) => Some(t)
    case _ => None
  }

  /** What a step of t does to t's own positions in queue and ring. */
  lemma RunnerMatched(s: State, x: Aux, a: Action, t: ThreadId)
    requires Inv(s, x) && Enabled(s, a) && Runner(a) == Some(t) && t in s.q.readers
    requires t in Step(s, a).q.readers && t in Step(s, a).ring.readers
    ensures ReaderMatch(Step(s, a), AuxStep(s, x, a).ring, t)
  {
    assert ReaderMatch(s, x.ring, t) && Q.ReaderOk(s.q, x.q, t);
    if s.q.readers[t].at == Q.Load && RingLabel(s, t) == B.Found { FoundInMap(s, x, t); }
    RunnerFollows(s, x, a, t);
  }

  lemma RunnerFollows(s: State, x: Aux, a: Action, t: ThreadId)
    requires t in s.q.readers && t in s.ring.readers && t in s.q.ix.consumers
    requires ReaderMatch(s, x.ring, t) && Q.ReaderOk(s.q, x.q, t)
    requires s.q.readers[t].at == Q.Load && RingLabel(s, t) == B.Found ==>
               B.Holds(s.ring, x.ring.units, EntryFound(s, t), Unit(s.q.readers[t].pos))
    requires Enabled(s, a) && Runner(a) == Some(t)
    requires t in Step(s, a).q.readers && t in Step(s, a).ring.readers
    ensures ReaderMatch(Step(s, a), AuxStep(s, x, a).ring, t)
  {
    if a.Run? && ListLabel(s, Me(t)) == F.Idle {
      match s.q.readers[t].at {
        case Waiting =>
        case Lookup => LookupMatched(s, x, t);
        case Load => LoadMatched(s, x, t);
        case Move => MoveMatched(s, x, t);
        case Count => CountMatched(s, x, t);
        case Clear => ClearMatched(s, x, t);
        case Release => ReleasedMatched(s, x, t);
      }
    }
  }

  lemma LookupMatched(s: State, x: Aux, t: ThreadId)
    requires t in s.q.readers && t in s.ring.readers && Enabled(s, Run(t)) && ListLabel(s, Me(t)) == F.Idle
    requires ReaderMatch(s, x.ring, t) && s.q.readers[t].at == Q.Lookup
    ensures t in Step(s, Run(t)).q.readers && t in Step(s, Run(t)).ring.readers
    ensures ReaderMatch(Step(s, Run(t)), AuxStep(s, x, Run(t)).ring, t)
  {
  }

  lemma LoadMatched(s: State, x: Aux, t: ThreadId)
    requires t in s.q.readers && t in s.ring.readers && Enabled(s, Run(t)) && ListLabel(s, Me(t)) == F.Idle
    requires ReaderMatch(s, x.ring, t) && s.q.readers[t].at == Q.Load && s.q.readers[t].base == Q.BaseOf(s.q.readers[t].pos)
    requires RingLabel(s, t) == B.Found ==> B.Holds(s.ring, x.ring.units, EntryFound(s, t), Unit(s.q.readers[t].pos))
    ensures t in Step(s, Run(t)).q.readers && t in Step(s, Run(t)).ring.readers
    ensures ReaderMatch(Step(s, Run(t)), AuxStep(s, x, Run(t)).ring, t)
  {
    UnitOf(Unit(s.q.readers[t].pos));
  }

  lemma MoveMatched(s: State, x: Aux, t: ThreadId)
    requires t in s.q.readers && t in s.ring.readers && Enabled(s, Run(t)) && ListLabel(s, Me(t)) == F.Idle
    requires ReaderMatch(s, x.ring, t) && s.q.readers[t].at == Q.Move
    requires var r := s.q.readers[t]; r.base % BLOCK_SIZE == 0 && r.base <= r.pos < Q.End(r)
    ensures t in Step(s, Run(t)).q.readers && t in Step(s, Run(t)).ring.readers
    ensures ReaderMatch(Step(s, Run(t)), AuxStep(s, x, Run(t)).ring, t)
  {
    NextUnit(s.q.readers[t]);
  }

  /** After the last index of a block comes the first of the next one, or none. */
  lemma NextUnit(r: Q.Reader)
    requires r.base % BLOCK_SIZE == 0 && r.base <= r.pos < Q.End(r)
    ensures if r.pos + 1 < Q.End(r) then Unit(r.pos + 1) == Unit(r.pos)
            else if r.pos + 1 == r.stop then Unit(r.pos) == LastUnit(r)
            else Unit(r.pos + 1) == Unit(r.pos) + 1 <= LastUnit(r)
  {
  }

  lemma CountMatched(s: State, x: Aux, t: ThreadId)
    requires t in s.q.readers && t in s.ring.readers && Enabled(s, Run(t)) && ListLabel(s, Me(t)) == F.Idle
    requires ReaderMatch(s, x.ring, t) && s.q.readers[t].at == Q.Count
    ensures t in Step(s, Run(t)).q.readers && t in Step(s, Run(t)).ring.readers
    ensures ReaderMatch(Step(s, Run(t)), AuxStep(s, x, Run(t)).ring, t)
  {
  }

  lemma ClearMatched(s: State, x: Aux, t: ThreadId)
    requires t in s.q.readers && t in s.ring.readers && Enabled(s, Run(t)) && ListLabel(s, Me(t)) == F.Idle
    requires ReaderMatch(s, x.ring, t) && s.q.readers[t].at == Q.Clear
    ensures t in Step(s, Run(t)).q.readers && t in Step(s, Run(t)).ring.readers
    ensures ReaderMatch(Step(s, Run(t)), AuxStep(s, x, Run(t)).ring, t)
  {
  }

  lemma ReleasedMatched(s: State, x: Aux, t: ThreadId)
    requires t in s.q.readers && t in s.ring.readers && Enabled(s, Run(t)) && ListLabel(s, Me(t)) == F.Idle
    requires ReaderMatch(s, x.ring, t) && s.q.readers[t].at == Q.Release
    ensures t in Step(s, Run(t)).q.readers && t in Step(s, Run(t)).ring.readers
    ensures ReaderMatch(Step(s, Run(t)), AuxStep(s, x, Run(t)).ring, t)
  {
  }

  lemma OthersResting(s: State, a: Action)
    requires Enabled(s, a) && s.ring.readers.Keys == s.q.readers.Keys
    ensures OthersRest(s, Step(s, a), Runner(a))
  {
    var s' := Step(s, a);
    if QueueAction(s, a).Some? { QueueReaders(s.q, QueueAction(s, a).value); }
    if RingAction(s, a).Some? { RingReaders(s.ring, RingAction(s, a).value); }
  }

  lemma QueueReaders(q: Q.Queue, a: Q.Action)
    ensures var q' := Q.Step(q, a);
            && q'.readers.Keys == q.readers.Keys
            && forall u | u in q.readers && !(a.Run? && a.runner == u) :: q'.readers[u] == q.readers[u]
  {
    Q.KeepReaders(q, a);
  }

  lemma RingReaders(ring: B.Index, a: B.Action)
    ensures var ring' := B.Step(ring, a);
            && ring'.readers.Keys == ring.readers.Keys
            && forall u | u in ring.readers && !(a.LookUp? && a.caller == u) && !(a.Read? && a.runner == u) ::
                 ring'.readers[u] == ring.readers[u]
  {
    var ring' := B.Step(ring, a);
    if a.LookUp? && a.caller in ring.readers {
      assert ring'.readers == ring.readers[a.caller := ring'.readers[a.caller]];
      assert ring'.readers.Keys == ring.readers.Keys;
    }
    if a.Read? && a.runner in ring.readers {
      assert ring'.readers == ring.readers[a.runner := ring'.readers[a.runner]];
      assert ring'.readers.Keys == ring.readers.Keys;
    }
  }

  lemma ReadersMatched(s: State, x: Aux, a: Action)
    requires Inv(s, x) && Enabled(s, a)
    ensures var s', x' := Step(s, a), AuxStep(s, x, a);
            && s'.ring.readers.Keys == s'.q.readers.Keys
            && forall t {:trigger ReaderMatch(s', x'.ring, t)} | t in s'.q.readers :: ReaderMatch(s', x'.ring, t)
  {
    OthersResting(s, a);
    if RingAction(s, a).Some? {
      RingEnabled(s, x, a);
      UnitsStay(s.ring, x.ring, RingAction(s, a).value);
    }
    if Runner(a).Some? && Runner(a).value in s.q.readers { RunnerMatched(s, x, a, Runner(a).value); }
    ReadersKept(s, x, Step(s, a), AuxStep(s, x, a).ring, Runner(a));
  }

  // ---------------------------------------------------------------------------------------
  // The free list follows the set
  // ---------------------------------------------------------------------------------------

  /** What a step of the list does to what it has handed out. */
  lemma ListMoves(list: F.List, t: ThreadId, a: F.Action)
    requires F.Enabled(list, t, a)
    requires list.threads[t].at !in {F.Idle, F.GetLoadHead} ==> list.threads[t].node in list.nodes
    ensures var list', me := F.Step(list, t, a), list.threads[t];
            && list'.threads.Keys == list.threads.Keys
            && (forall u | u in list.threads && u != t :: list'.threads[u] == list.threads[u])
            && list'.nodes.Keys == list.nodes.Keys + (if a.Allocate? then {a.created} else {})
            && list'.owned == (if a.Allocate? then list.owned + {a.created}
                               else if a.CallAdd? then list.owned - {a.mine}
                               else if me.at == F.GetFinish then list.owned + {me.node} else list.owned)
            && (Adds(me) && !a.Allocate? && !a.CallTryGet? ==> Adds(list'.threads[t]))
            && (me.at == F.GetFinish ==> list'.threads[t].at == F.Idle)
            && (a.Allocate? ==> list'.threads[t] == me)
  {
    var list' := F.Step(list, t, a);
    assert list'.threads == list.threads[t := list'.threads[t]];
    assert list'.threads.Keys == list.threads.Keys;
  }

  ghost predicate SameBlocks(q: Q.Queue, q': Q.Queue) {
    q'.blocks.Keys == q.blocks.Keys && q'.free == q.free
  }

  /** What a step of the queue does to its blocks. */
  lemma QueueBlocks(q: Q.Queue, qx: Q.Aux, a: Q.Action)
    requires Q.Inv(q, qx) && Q.Enabled(q, a)
    ensures var q' := Q.Step(q, a);
            if a.Produce? && q.producer.at == Q.Requisition
            then q'.blocks.Keys == q.blocks.Keys + {a.choice} && q'.free == q.free - {a.choice}
            else if a.Run? && q.readers[a.runner].at == Q.Release
            then q'.blocks.Keys == q.blocks.Keys && q'.free == q.free + {q.readers[a.runner].block}
            else SameBlocks(q, q')
  {
    if a.Run? { assert Q.ReaderOk(q, qx, a.runner); }
    if a.Produce? && q.producer.at == Q.Construct { assert Q.BaseOk(q, qx, Q.BaseOf(q.ix.tail)); }
    if a.Run? && q.readers[a.runner].at in {Q.Move, Q.Count} { assert Q.BaseOk(q, qx, q.readers[a.runner].base); }
  }

  lemma ListMatched(s: State, x: Aux, a: Action)
    requires Inv(s, x) && Enabled(s, a)
    ensures ListMatch(Step(s, a).q, Step(s, a).list)
  {
    QueueRefined(s, x, a);
    OthersResting(s, a);
    if a.Produce? {
      if s.q.producer.at == Q.Requisition { RequisitionMatched(s, x, a.made); } else { UntouchedMatched(s, x, a); }
    } else if a.Run? && ListLabel(s, Me(a.runner)) != F.Idle {
      AdderMoves(s, x, a.runner);
      AdderStep(s, a.runner);
    } else if a.Run? && s.q.readers[a.runner].at == Q.Release {
      ReleaseMatched(s, x, a.runner);
      ReleaseStep(s, a.runner);
    } else {
      UntouchedMatched(s, x, a);
    }
  }

  /** Steps that have nothing to do with the list. */
  lemma UntouchedMatched(s: State, x: Aux, a: Action)
    requires Inv(s, x) && Enabled(s, a) && ListAction(s, a).None? && !(a.Produce? && s.q.producer.at == Q.Requisition)
    requires a.Run? ==> s.q.readers[a.runner].at != Q.Release
    requires QueueStep(s, a) == if QueueAction(s, a).Some? then Q.Step(s.q, QueueAction(s, a).value) else s.q
    requires Step(s, a).q.readers.Keys == s.q.readers.Keys
    ensures ListMatch(Step(s, a).q, Step(s, a).list)
  {
    if QueueAction(s, a).Some? { QueueBlocks(s.q, x.q, QueueAction(s, a).value); }
    UntouchedFollows(s, a);
  }

  lemma UntouchedFollows(s: State, a: Action)
    requires ListMatch(s.q, s.list) && Enabled(s, a) && ListAction(s, a).None?
    requires !(a.Produce? && s.q.producer.at == Q.Requisition)
    requires QueueStep(s, a) == if QueueAction(s, a).Some? then Q.Step(s.q, QueueAction(s, a).value) else s.q
    requires Step(s, a).q.readers.Keys == s.q.readers.Keys
    requires QueueAction(s, a).Some? ==> SameBlocks(s.q, Q.Step(s.q, QueueAction(s, a).value))
    ensures ListMatch(Step(s, a).q, Step(s, a).list)
  {
  }

  lemma InNodes(list: F.List, lx: F.Aux, t: ThreadId)
    requires F.Inv(list, lx) && t in list.threads
    ensures list.threads[t].at !in {F.Idle, F.GetLoadHead} ==> list.threads[t].node in list.nodes
  {
    assert F.ThreadOk(list, lx, t);
  }

  lemma RequisitionMatched(s: State, x: Aux, made: Option<Q.BlockId>)
    requires Inv(s, x) && Enabled(s, Produce(made)) && s.q.producer.at == Q.Requisition
    requires Step(s, Produce(made)).q.readers.Keys == s.q.readers.Keys
    ensures ListMatch(Step(s, Produce(made)).q, Step(s, Produce(made)).list)
  {
    InNodes(s.list, x.list, PRODUCER);
    if QueueAction(s, Produce(made)).Some? { RequisitionTakes(s, x, made); }
    RequisitionFollows(s, made);
  }

  lemma RequisitionTakes(s: State, x: Aux, made: Option<Q.BlockId>)
    requires Inv(s, x) && Enabled(s, Produce(made)) && s.q.producer.at == Q.Requisition
    requires QueueAction(s, Produce(made)).Some?
    ensures var act := QueueAction(s, Produce(made)).value;
            && Q.Enabled(s.q, act)
            && Q.Step(s.q, act).blocks.Keys == s.q.blocks.Keys + {act.choice}
            && Q.Step(s.q, act).free == s.q.free - {act.choice}
  {
    ObtainsFree(s, x, made);
    QueueBlocks(s.q, x.q, QueueAction(s, Produce(made)).value);
  }

  lemma RequisitionFollows(s: State, made: Option<Q.BlockId>)
    requires ListMatch(s.q, s.list) && Enabled(s, Produce(made)) && s.q.producer.at == Q.Requisition
    requires s.list.threads[PRODUCER].at !in {F.Idle, F.GetLoadHead} ==> s.list.threads[PRODUCER].node in s.list.nodes
    requires Step(s, Produce(made)).q.readers.Keys == s.q.readers.Keys
    requires var act := QueueAction(s, Produce(made));
             act.Some? ==> Q.Enabled(s.q, act.value)
                           && Q.Step(s.q, act.value).blocks.Keys == s.q.blocks.Keys + {act.value.choice}
                           && Q.Step(s.q, act.value).free == s.q.free - {act.value.choice}
    ensures ListMatch(Step(s, Produce(made)).q, Step(s, Produce(made)).list)
  {
    ListMoves(s.list, PRODUCER, ListAction(s, Produce(made)).value.1);
  }

  lemma AdderMoves(s: State, x: Aux, t: ThreadId)
    requires Inv(s, x) && t in s.q.readers && ListLabel(s, Me(t)) != F.Idle
    ensures ListMatch(s.q, F.Step(s.list, Me(t), F.Continue))
  {
    InNodes(s.list, x.list, Me(t));
    AdderFollows(s.q, s.list, t);
  }

  lemma AdderStep(s: State, t: ThreadId)
    requires Enabled(s, Run(t)) && ListLabel(s, Me(t)) != F.Idle
    ensures Step(s, Run(t)).q == s.q && Step(s, Run(t)).list == F.Step(s.list, Me(t), F.Continue)
  {
  }

  lemma AdderFollows(q: Q.Queue, list: F.List, t: ThreadId)
    requires ListMatch(q, list) && t in q.readers && list.threads[Me(t)].at != F.Idle
    requires list.threads[Me(t)].node in list.nodes
    ensures ListMatch(q, F.Step(list, Me(t), F.Continue))
  {
    ListMoves(list, Me(t), F.Continue);
  }

  lemma ReleaseMatched(s: State, x: Aux, t: ThreadId)
    requires Inv(s, x) && Q.Enabled(s.q, Q.Run(t)) && ListLabel(s, Me(t)) == F.Idle && s.q.readers[t].at == Q.Release
    requires Q.Step(s.q, Q.Run(t)).readers.Keys == s.q.readers.Keys
    ensures ListMatch(Q.Step(s.q, Q.Run(t)), F.Step(s.list, Me(t), F.CallAdd(s.q.readers[t].block)))
  {
    var k := s.q.readers[t].block;
    assert Q.ReaderOk(s.q, x.q, t) && Q.BlockOk(s.q, x.q, k);
    QueueBlocks(s.q, x.q, Q.Run(t));
    OnlyProduces(s.q, Q.Run(t));
    AddFollows(s.q, s.list, Q.Step(s.q, Q.Run(t)), t, k);
  }

  lemma ReleaseStep(s: State, t: ThreadId)
    requires Enabled(s, Run(t)) && ListLabel(s, Me(t)) == F.Idle && s.q.readers[t].at == Q.Release
    ensures Step(s, Run(t)).q == Q.Step(s.q, Q.Run(t))
    ensures Step(s, Run(t)).list == F.Step(s.list, Me(t), F.CallAdd(s.q.readers[t].block))
  {
  }

  lemma AddFollows(q: Q.Queue, list: F.List, q': Q.Queue, t: ThreadId, k: Q.BlockId)
    requires ListMatch(q, list) && t in q.readers && list.threads[Me(t)].at == F.Idle && k in q.blocks && k !in q.free
    requires q'.readers.Keys == q.readers.Keys && q'.blocks.Keys == q.blocks.Keys && q'.free == q.free + {k}
    requires q'.producer == q.producer
    ensures ListMatch(q', F.Step(list, Me(t), F.CallAdd(k)))
  {
    assert k in list.owned;
    ListMoves(list, Me(t), F.CallAdd(k));
  }

  // ---------------------------------------------------------------------------------------
  // Steps and runs
  // ---------------------------------------------------------------------------------------

  /** What module Tickets supposes of the comparison. */
  predicate Near(s: State, a: Action) {
    QueueAction(s, a).Some? ==> Q.Near(s.q, QueueAction(s, a).value)
  }

  lemma PartsKept(s: State, x: Aux, a: Action)
    requires Inv(s, x) && Enabled(s, a) && Near(s, a)
    ensures Q.Inv(Step(s, a).q, AuxStep(s, x, a).q) && B.Inv(Step(s, a).ring, AuxStep(s, x, a).ring)
    ensures F.Inv(Step(s, a).list, AuxStep(s, x, a).list)
  {
    QueueRefined(s, x, a);
    if QueueAction(s, a).Some? { Q.StepInv(s.q, x.q, QueueAction(s, a).value); }
    if RingAction(s, a).Some? {
      RingEnabled(s, x, a);
      B.StepInv(s.ring, x.ring, RingAction(s, a).value);
    }
    if ListAction(s, a).Some? { F.StepInv(s.list, x.list, ListAction(s, a).value.0, ListAction(s, a).value.1); }
  }

  /**
   * The refinement. A step of the whole is, for the queue, the step of module ImplicitQueue that it
   * would make with its map and its set, or none; for the ring, an operation that module BlockIndex
   * permits, or none; and for the list an operation of module FreeList, or none.
   */
  lemma StepInv(s: State, x: Aux, a: Action)
    requires Inv(s, x) && Near(s, a)
    ensures Inv(Step(s, a), AuxStep(s, x, a))
    ensures Enabled(s, a) ==>
              && Step(s, a).q == (if QueueAction(s, a).Some? then Q.Step(s.q, QueueAction(s, a).value) else s.q)
              && (RingAction(s, a).Some? ==> B.Enabled(s.ring, x.ring.units, RingAction(s, a).value))
              && (ListAction(s, a).Some? ==> F.Enabled(s.list, ListAction(s, a).value.0, ListAction(s, a).value.1))
  {
    if Enabled(s, a) {
      PartsKept(s, x, a);
      RingMatched(s, x, a);
      PhaseMatched(s, x, a);
      ReadersMatched(s, x, a);
      ListMatched(s, x, a);
      QueueRefined(s, x, a);
      if RingAction(s, a).Some? { RingEnabled(s, x, a); }
      if ListAction(s, a).Some? { ListEnabled(s, x, a); }
    }
  }

  lemma ListEnabled(s: State, x: Aux, a: Action)
    requires Inv(s, x) && Enabled(s, a) && ListAction(s, a).Some?
    ensures F.Enabled(s.list, ListAction(s, a).value.0, ListAction(s, a).value.1)
  {
    if a.Run? && ListLabel(s, Me(a.runner)) == F.Idle {
      assert Q.ReaderOk(s.q, x.q, a.runner) && Q.BlockOk(s.q, x.q, s.q.readers[a.runner].block);
    }
  }

  function ListThreads(threads: set<ThreadId>): set<ThreadId> {
    {PRODUCER} + set t | t in threads :: Me(t)
  }

  function Init(threads: set<ThreadId>): State {
    State(Q.Init(threads), B.Init(threads), F.Init(ListThreads(threads)), map[])
  }

  /** The state after the scheduler picked these steps; one that is not enabled is skipped. */
  function Execute(threads: set<ThreadId>, steps: seq<Action>): State {
    if steps == [] then Init(threads) else Step(Execute(threads, steps[..|steps| - 1]), steps[|steps| - 1])
  }

  function History(threads: set<ThreadId>, steps: seq<Action>): Aux {
    if steps == [] then Aux(Q.History(threads, []), B.History(threads, []), F.History(ListThreads(threads), []))
    else AuxStep(Execute(threads, steps[..|steps| - 1]), History(threads, steps[..|steps| - 1]), steps[|steps| - 1])
  }

  predicate Timely(threads: set<ThreadId>, steps: seq<Action>) {
    steps == [] ||
    (Timely(threads, steps[..|steps| - 1]) && Near(Execute(threads, steps[..|steps| - 1]), steps[|steps| - 1]))
  }

  lemma InitInv(threads: set<ThreadId>)
    requires F.FewThreads(ListThreads(threads))
    ensures Inv(Init(threads), History(threads, []))
  {
    Q.ExecuteInv(threads, []);
    assert B.Legal(threads, []);
    B.ExecuteInv(threads, []);
    F.RunInv(ListThreads(threads), []);
    InitCoupled(threads);
  }

  lemma InitCoupled(threads: set<ThreadId>)
    ensures Coupled(Init(threads), History(threads, []))
  {
    assert Init(threads).list.threads.Keys == ListThreads(threads);
  }

  lemma {:induction false} ExecuteInv(threads: set<ThreadId>, steps: seq<Action>)
    requires F.FewThreads(ListThreads(threads)) && Timely(threads, steps)
    ensures Inv(Execute(threads, steps), History(threads, steps))
  {
    if steps == [] {
      InitInv(threads);
    } else {
      ExecuteInv(threads, steps[..|steps| - 1]);
      StepInv(Execute(threads, steps[..|steps| - 1]), History(threads, steps[..|steps| - 1]), steps[|steps| - 1]);
    }
  }

  /**
   * What it is all for: with elements in blocks found through a ring that is reused and doubled, and
   * blocks that go through a lock-free list, what a consumer takes out at an index is what the producer
   * put there.
   */
  lemma DeliveredAsProduced(threads: set<ThreadId>, steps: seq<Action>, i: nat)
    requires F.FewThreads(ListThreads(threads)) && Timely(threads, steps)
    requires i in History(threads, steps).q.delivered
    ensures var x := History(threads, steps).q;
            i < Execute(threads, steps).q.ix.head <= |x.produced| && x.delivered[i] == x.produced[i]
  {
    ExecuteInv(threads, steps);
    assert Q.SlotOk(Execute(threads, steps).q, History(threads, steps).q, i);
  }

  /** And a block the list is about to hand to the producer is not in any consumer's hands, nor where it writes. */
  lemma HandedOutIsUnused(threads: set<ThreadId>, steps: seq<Action>)
    requires F.FewThreads(ListThreads(threads)) && Timely(threads, steps)
    requires ListLabel(Execute(threads, steps), PRODUCER) == F.GetFinish
    ensures var s := Execute(threads, steps); var k := ListNode(s, PRODUCER);
            && (forall t | t in s.q.readers && s.q.readers[t].at in {Q.Move, Q.Count, Q.Clear, Q.Release} :: s.q.readers[t].block != k)
            && (s.q.ix.tail % BLOCK_SIZE != 0 ==> s.q.tailBlock != k)
  {
    ExecuteInv(threads, steps);
    HandedFree(Execute(threads, steps), History(threads, steps));
    Q.FreeBlock(Execute(threads, steps).q, History(threads, steps).q, ListNode(Execute(threads, steps), PRODUCER));
  }

  lemma HandedFree(s: State, x: Aux)
    requires Inv(s, x) && ListLabel(s, PRODUCER) == F.GetFinish
    ensures ListNode(s, PRODUCER) in s.q.free
  {
    assert F.ThreadOk(s.list, x.list, PRODUCER) && F.NodeOk(s.list, x.list, ListNode(s, PRODUCER));
  }
}
