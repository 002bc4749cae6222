/**
 * Elements, blocks and their reclamation in one implicit producer
 * (deflect/moodycamel/concurrentqueue.h, ImplicitProducer::enqueue, dequeue, dequeue_bulk,
 * Block::set_many_empty, requisition_block).
 *
 * One producer thread and any number of consumers, one atomic operation at a time. Claiming indices
 * is the machine of module Tickets, used as it is; the block index is a map from the first index of
 * a block to its entry (module BlockIndex shows that the ring is one), and the free list a set of
 * blocks (module FreeList shows that no block is handed out twice).
 */
module ImplicitQueue {
  import opened Common
  import Tickets

  type BlockId = nat
  type Element = int

  const BLOCK_SIZE: nat := 32

  /** index & ~(BLOCK_SIZE - 1) */
  function BaseOf(i: nat): nat {
    i / BLOCK_SIZE * BLOCK_SIZE
  }

  /** A block: elementsCompletelyDequeued, and the constructed elements by their offset. */
  datatype Block = Block(done: nat, slots: map<nat, Element>)

  datatype ProducerLabel =
    | Ready
    | CheckHead | InsertEntry | Requisition | Reset | StoreEntry | SetTailBlock  // a new block
    | Construct | Publish

  datatype Producer = Producer(at: ProducerLabel, element: Element, block: BlockId)

  datatype ReaderLabel =
    | Waiting                        // still drawing tickets
    | Lookup | Load                  // find the block of the next index
    | Move                           // take one element out
    | Count                          // set_empty / set_many_empty
    | Clear | Release                // the block is empty: out of the index, back to the free list

  /** A consumer that owns indices: [start, pos) are taken out but not counted, [pos, stop) are to be taken. */
  datatype Reader = Reader(at: ReaderLabel, start: nat, pos: nat, stop: nat, base: nat, block: BlockId)

  datatype Queue = Queue(
    ix: Tickets.Indices,
    blocks: map<BlockId, Block>,
    index: map<nat, Option<BlockId>>,  // block index entries by block base
    free: set<BlockId>,
    tailBlock: BlockId,
    producer: Producer,
    readers: map<ThreadId, Reader>)

  datatype Action =
    | Call(caller: ThreadId, bulk: bool, max: nat)
    | Run(runner: ThreadId)
    | Enqueue(element: Element)
    | Produce(choice: BlockId)         // the block requisition_block comes up with

  function Min(a: nat, b: nat): nat {
    if a < b then a else b
  }

  /** Where the run of indices inside one block ends. */
  function End(r: Reader): nat {
    Min(r.stop, r.base + BLOCK_SIZE)
  }

  predicate Enabled(s: Queue, a: Action) {
    match a
    case Call(t, bulk, max) => Tickets.Enabled(s.ix, Tickets.Call(t, bulk, max)) && t in s.readers
    case Run(t) => t in s.readers && Tickets.Enabled(s.ix, Tickets.Continue(t))
    case Enqueue(_) => s.producer.at == Ready
    case Produce(k) => s.producer.at != Ready && (s.producer.at == Requisition ==> k in s.free || k !in s.blocks)
  }

  function Load1(s: Queue, base: nat): BlockId {
    if base in s.index && s.index[base].Some? then s.index[base].value else 0
  }

  function At(s: Queue, k: BlockId): Block {
    if k in s.blocks then s.blocks[k] else Block(0, map[])
  }

  function SetReader(s: Queue, t: ThreadId, r: Reader): Queue {
    s.(readers := s.readers[t := r])
  }

  /** Done with one block: on to the next one, or back to the caller. */
  function Next(s: Queue, t: ThreadId, r: Reader): Queue {
    if r.pos == r.stop
    then SetReader(s, t, r.(at := Waiting)).(ix := Tickets.Step(s.ix, Tickets.Continue(t)))
    else SetReader(s, t, r.(at := Lookup))
  }

  function Read(s: Queue, t: ThreadId): Queue
    requires t in s.readers
  {
    var r := s.readers[t];
    var block := At(s, r.block);
    match r.at
    case Waiting => s
    case Lookup => SetReader(s, t, r.(at := Load, base := BaseOf(r.pos)))
    case Load => SetReader(s, t, r.(at := Move, block := Load1(s, r.base)))
    case Move =>
      SetReader(s.(blocks := s.blocks[r.block := block.(slots := block.slots - {r.pos % BLOCK_SIZE})]), t,
                r.(at := if r.pos + 1 == End(r) then Count else Move, pos := r.pos + 1))
    case Count =>
      var done := block.done + r.pos - r.start;
      if done < 0 then s else
      var s' := s.(blocks := s.blocks[r.block := block.(done := done)]);
      if done == BLOCK_SIZE
      then SetReader(s', t, r.(at := Clear, start := r.pos))
      else Next(s', t, r.(start := r.pos))
    case Clear => SetReader(s.(index := s.index[r.base := None]), t, r.(at := Release))
    case Release => Next(s.(free := s.free + {r.block}), t, r)
  }

  function MakeProgress(s: Queue, choice: BlockId): Queue {
    var p := s.producer;
    var tail := s.ix.tail;
    match p.at
    case Ready => s
    case CheckHead =>
      // enqueue returns false when the sub-queue would span half of the index range
      if Tickets.CircularLess(Tickets.Word(s.ix.head), Tickets.Word(tail + BLOCK_SIZE))
      then s.(producer := p.(at := InsertEntry)) else s.(producer := p.(at := Ready))
    case InsertEntry => s.(index := s.index[tail := None], producer := p.(at := Requisition))
    case Requisition =>
      s.(free := s.free - {choice}, blocks := s.blocks[choice := At(s, choice)],
         producer := p.(at := Reset, block := choice))
    case Reset =>
      s.(blocks := s.blocks[p.block := At(s, p.block).(done := 0)], producer := p.(at := StoreEntry))
    case StoreEntry => s.(index := s.index[tail := Some(p.block)], producer := p.(at := SetTailBlock))
    case SetTailBlock => s.(tailBlock := p.block, producer := p.(at := Construct))
    case Construct =>
      var block := At(s, s.tailBlock);
      s.(blocks := s.blocks[s.tailBlock := block.(slots := block.slots[tail % BLOCK_SIZE := p.element])],
         producer := p.(at := Publish))
    case Publish => s.(ix := Tickets.Step(s.ix, Tickets.Publish), producer := p.(at := Ready))
  }

  /** One atomic operation of one thread. */
  function Step(s: Queue, a: Action): Queue {
    if !Enabled(s, a) then s else
    match a
    case Call(t, bulk, max) => s.(ix := Tickets.Step(s.ix, Tickets.Call(t, bulk, max)))
    case Run(t) =>
      if s.readers[t].at == Waiting then
        var ix' := Tickets.Step(s.ix, Tickets.Continue(t));
        var me := ix'.consumers[t];
        if me.at == Tickets.Claimed
        then SetReader(s.(ix := ix'), t, s.readers[t].(at := Lookup, start := me.first, pos := me.first,
                                                       stop := me.first + me.actual))
        else s.(ix := ix')
      else Read(s, t)
    case Enqueue(e) =>
      var at := if s.ix.tail % BLOCK_SIZE == 0 then CheckHead else Construct;
      s.(producer := s.producer.(at := at, element := e))
    case Produce(choice) => MakeProgress(s, choice)
  }

  // ---------------------------------------------------------------------------------------
  // Bookkeeping
  // ---------------------------------------------------------------------------------------

  /** Where a block is: exactly one of these. */
  datatype Place = InFree | Home(base: nat) | Leaving(who: ThreadId) | Building

  datatype Aux = Aux(
    fates: seq<Tickets.Ticket>,
    produced: seq<Element>,            // what was published, by index
    delivered: map<nat, Element>,      // what was taken out, by index
    counted: set<nat>,                 // indices reported to their block's counter
    claimant: seq<ThreadId>,           // who claimed each index
    retirer: map<nat, ThreadId>,       // who completed the block with this base
    place: map<BlockId, Place>)

  function Range(lo: nat, hi: nat): (r: set<nat>)
    ensures forall i :: i in r <==> lo <= i < hi
    decreases hi
  {
    if hi <= lo then {} else Range(lo, hi - 1) + {hi - 1}
  }

  function TicketAction(s: Queue, a: Action): Option<Tickets.Action> {
    match a
    case Call(t, bulk, max) => Some(Tickets.Call(t, bulk, max))
    case Run(t) =>
      if t in s.readers && (s.readers[t].at == Waiting || Step(s, a).readers[t].at == Waiting)
      then Some(Tickets.Continue(t)) else None
    case Enqueue(_) => None
    case Produce(_) => if s.producer.at == Publish then Some(Tickets.Publish) else None
  }

  function AuxStep(s: Queue, x: Aux, a: Action): Aux {
    if !Enabled(s, a) then x else
    var ta := TicketAction(s, a);
    var x := if ta.Some? then x.(fates := Tickets.AuxStep(s.ix, x.fates, ta.value)) else x;
    match a
    case Call(_, _, _) => x
    case Run(t) =>
      var r := s.readers[t];
      (match r.at
       case Waiting =>
         var grown := Step(s, a).ix.head - s.ix.head;
         if grown > 0 then x.(claimant := x.claimant + seq(grown, _ => t)) else x
       case Move =>
         var slots := At(s, r.block).slots;
         x.(delivered := x.delivered[r.pos := if r.pos % BLOCK_SIZE in slots then slots[r.pos % BLOCK_SIZE] else 0])
       case Count =>
         var x' := x.(counted := x.counted + Range(r.start, r.pos));
         if Step(s, a).readers[t].at == Clear then x'.(retirer := x'.retirer[r.base := t]) else x'
       case Clear => x.(place := x.place[r.block := Leaving(t)])
       case Release => x.(place := x.place[r.block := InFree])
       case _ => x)
    case Enqueue(_) => x
    case Produce(choice) =>
      (match s.producer.at
       case Requisition => x.(place := x.place[choice := Building])
       case StoreEntry => x.(place := x.place[s.producer.block := Home(s.ix.tail)])
       case Publish => x.(produced := x.produced + [s.producer.element])
       case _ => x)
  }

  /** How many of the n indices from lo are in c. */
  function CountIn(c: set<nat>, lo: nat, n: nat): nat {
    if n == 0 then 0 else CountIn(c, lo, n - 1) + if lo + n - 1 in c then 1 else 0
  }

  ghost predicate AllIn(c: set<nat>, base: nat) {
    forall i :: base <= i < base + BLOCK_SIZE ==> i in c
  }

  ghost predicate BlockOk(s: Queue, x: Aux, k: BlockId)
    requires k in s.blocks && k in x.place
  {
    match x.place[k]
    case InFree => k in s.free
    case Home(b) =>
      && k !in s.free && b in s.index && s.index[b] == Some(k)
      && s.blocks[k].done == CountIn(x.counted, b, BLOCK_SIZE)
    case Leaving(t) => k !in s.free && t in s.readers && s.readers[t].at == Release && s.readers[t].block == k
    case Building =>
      && k !in s.free && (s.producer.at == Reset || s.producer.at == StoreEntry) && s.producer.block == k
      && (s.producer.at == StoreEntry ==> s.blocks[k].done == 0)
  }

  ghost predicate BaseOk(s: Queue, x: Aux, b: nat)
    requires b in s.index
  {
    && b % BLOCK_SIZE == 0
    && (b < s.ix.tail || (b == s.ix.tail && s.producer.at != Ready && s.producer.at != CheckHead && s.producer.at != InsertEntry))
    && match s.index[b]
       case Some(k) =>
         && k in s.blocks && k in x.place && x.place[k] == Home(b)
         && (AllIn(x.counted, b) ==>
               b in x.retirer && x.retirer[b] in s.readers
               && s.readers[x.retirer[b]].at == Clear && s.readers[x.retirer[b]].base == b)
       case None =>
         || (b == s.ix.tail && (s.producer.at == Requisition || s.producer.at == Reset || s.producer.at == StoreEntry))
         || AllIn(x.counted, b)
  }

  ghost predicate SlotOk(s: Queue, x: Aux, i: nat)
    requires i < s.ix.tail == |x.produced|
  {
    && BaseOf(i) in s.index
    && (i in x.delivered ==> i < s.ix.head && x.delivered[i] == x.produced[i])
    && (i in x.counted ==> i in x.delivered)
    && (i !in x.delivered ==>
          s.index[BaseOf(i)].Some? && var k := s.index[BaseOf(i)].value;
          k in s.blocks && i % BLOCK_SIZE in s.blocks[k].slots && s.blocks[k].slots[i % BLOCK_SIZE] == x.produced[i])
  }

  /** Every claimed index that is not counted yet is in the hands of the consumer that claimed it. */
  ghost predicate ClaimOk(s: Queue, x: Aux, i: nat)
    requires i < |x.claimant|
  {
    && x.claimant[i] in s.readers
    && (i !in x.counted ==>
          var r := s.readers[x.claimant[i]];
          r.at != Waiting && r.start <= i < r.stop && (i in x.delivered <==> i < r.pos))
  }

  ghost predicate InHand(s: Queue, r: Reader) {
    && r.base % BLOCK_SIZE == 0 && r.base <= r.start <= r.pos <= End(r)
    && r.base in s.index && s.index[r.base] == Some(r.block)
  }

  ghost predicate ReaderOk(s: Queue, x: Aux, t: ThreadId)
    requires t in s.readers && t in s.ix.consumers
  {
    var r := s.readers[t];
    && (r.at == Waiting <==> s.ix.consumers[t].at != Tickets.Claimed)
    && (r.at != Waiting ==>
          && r.start <= r.pos <= r.stop <= |x.claimant|
          && (forall i | r.start <= i < r.stop :: x.claimant[i] == t && i !in x.counted)
          && (forall i | r.start <= i < r.stop :: i in x.delivered <==> i < r.pos)
          && (forall i | r.stop <= i < |x.claimant| :: x.claimant[i] != t))
    && match r.at
       case Waiting => true
       case Lookup => r.start == r.pos < r.stop
       case Load => r.start == r.pos < r.stop && r.base == BaseOf(r.pos)
       case Move => InHand(s, r) && r.pos < End(r)
       case Count => InHand(s, r) && r.start < r.pos == End(r)
       case Clear =>
         && InHand(s, r) && r.start == r.pos == End(r) && AllIn(x.counted, r.base)
         && r.base in x.retirer && x.retirer[r.base] == t
       case Release =>
         && r.start == r.pos && r.block in s.blocks && r.block in x.place && x.place[r.block] == Leaving(t)
  }

  ghost predicate ProducerOk(s: Queue, x: Aux) {
    var p, tail := s.producer, s.ix.tail;
    && (p.at in {CheckHead, InsertEntry, Requisition, Reset, StoreEntry, SetTailBlock} ==> tail % BLOCK_SIZE == 0)
    && (p.at in {Requisition, Reset, StoreEntry} ==> tail in s.index && s.index[tail] == None)
    && (p.at in {Reset, StoreEntry} ==> p.block in s.blocks && p.block in x.place && x.place[p.block] == Building)
    && (p.at == SetTailBlock ==> tail in s.index && s.index[tail] == Some(p.block))
    && (p.at == Construct || p.at == Publish || tail % BLOCK_SIZE != 0 ==>
          BaseOf(tail) in s.index && s.index[BaseOf(tail)] == Some(s.tailBlock))
    && (p.at == Publish ==>
          s.tailBlock in s.blocks && tail % BLOCK_SIZE in s.blocks[s.tailBlock].slots
          && s.blocks[s.tailBlock].slots[tail % BLOCK_SIZE] == p.element)
  }

  ghost predicate Shape(s: Queue, x: Aux) {
    && s.readers.Keys == s.ix.consumers.Keys
    && s.blocks.Keys == x.place.Keys
    && s.free <= s.blocks.Keys
    && |x.produced| == s.ix.tail
    && |x.claimant| == s.ix.head <= s.ix.tail
    && (forall i | i in x.delivered :: i < s.ix.head)
    && (forall i | i in x.counted :: i < s.ix.head)
  }

  ghost predicate Inv(s: Queue, x: Aux) {
    Tickets.Inv(s.ix, x.fates) && Core(s, x)
  }

  /** All but the tickets. */
  ghost predicate Core(s: Queue, x: Aux) {
    && Shape(s, x)
    && ProducerOk(s, x)
    && (forall k {:trigger BlockOk(s, x, k)} | k in s.blocks :: BlockOk(s, x, k))
    && (forall b {:trigger BaseOk(s, x, b)} | b in s.index :: BaseOk(s, x, b))
    && (forall i {:trigger SlotOk(s, x, i)} | 0 <= i < s.ix.tail :: SlotOk(s, x, i))
    && (forall i {:trigger ClaimOk(s, x, i)} | 0 <= i < |x.claimant| :: ClaimOk(s, x, i))
    && (forall t {:trigger ReaderOk(s, x, t)} | t in s.readers :: ReaderOk(s, x, t))
  }

  /** What module Tickets supposes of the comparison, if the operation is one. */
  predicate Near(s: Queue, a: Action) {
    a.Run? && a.runner in s.readers && s.readers[a.runner].at == Waiting ==> Tickets.Near(s.ix, Tickets.Continue(a.runner))
  }

  // ---------------------------------------------------------------------------------------
  // Counting
  // ---------------------------------------------------------------------------------------

  lemma {:induction false} CountFull(c: set<nat>, lo: nat, n: nat)
    ensures CountIn(c, lo, n) <= n
    ensures CountIn(c, lo, n) == n <==> forall i :: lo <= i < lo + n ==> i in c
  {
    if n > 0 {
      CountFull(c, lo, n - 1);
      if CountIn(c, lo, n) != n && CountIn(c, lo, n - 1) == n - 1 {
        assert lo + n - 1 !in c;
      }
    }
  }

  lemma {:induction false} CountAdd(c: set<nat>, lo: nat, n: nat, a: nat, b: nat)
    requires lo <= a <= b && forall i :: a <= i < b ==> i !in c
    ensures CountIn(c + Range(a, b), lo, n) ==
            CountIn(c, lo, n) + (if lo + n <= a then 0 else if lo + n <= b then lo + n - a else b - a)
  {
    if n > 0 { CountAdd(c, lo, n - 1, a, b); }
  }

  lemma {:induction false} CountSame(c: set<nat>, d: set<nat>, lo: nat, n: nat)
    requires forall i :: lo <= i < lo + n ==> (i in c <==> i in d)
    ensures CountIn(c, lo, n) == CountIn(d, lo, n)
  {
    if n > 0 { CountSame(c, d, lo, n - 1); }
  }

  lemma BaseFacts(i: nat)
    ensures BaseOf(i) <= i < BaseOf(i) + BLOCK_SIZE && BaseOf(i) % BLOCK_SIZE == 0
    ensures i == BaseOf(i) + i % BLOCK_SIZE
  {
  }

  /** An index lies in one block only. */
  lemma BaseUnique(i: nat, b: nat)
    requires b % BLOCK_SIZE == 0 && b <= i < b + BLOCK_SIZE
    ensures BaseOf(i) == b
  {
  }

  // ---------------------------------------------------------------------------------------
  // Preservation
  // ---------------------------------------------------------------------------------------

  /** Memory, the producer and the counters stand still. */
  ghost predicate Still(s: Queue, s': Queue) {
    && s'.blocks == s.blocks && s'.index == s.index && s'.free == s.free && s'.tailBlock == s.tailBlock
    && s'.producer == s.producer && s'.ix.tail == s.ix.tail && s'.ix.head == s.ix.head
  }

  /** Reader t moves without touching memory; its range of indices stays. */
  lemma WalkInv(s: Queue, x: Aux, s': Queue, t: ThreadId)
    requires Core(s, x) && t in s.readers && Still(s, s') && s'.ix == s.ix
    requires t in s'.readers && s'.readers == s.readers[t := s'.readers[t]]
    requires s.readers[t].at in {Lookup, Load}
    requires var r, r' := s.readers[t], s'.readers[t];
             r'.at in {Load, Move} && r'.start == r.start && r'.pos == r.pos && r'.stop == r.stop
    requires ReaderOk(s', x, t)
    ensures Core(s', x)
  {
    WalkMemory(s, x, s', t);
    assert s'.readers.Keys == s.readers.Keys;
    forall i | 0 <= i < |x.claimant| ensures ClaimOk(s', x, i) { assert ClaimOk(s, x, i); }
    OthersWalk(s, x, s', t);
  }

  lemma OthersWalk(s: Queue, x: Aux, s': Queue, t: ThreadId)
    requires Core(s, x) && t in s.readers && Still(s, s') && s'.ix == s.ix
    requires t in s'.readers && s'.readers == s.readers[t := s'.readers[t]] && ReaderOk(s', x, t)
    ensures forall u {:trigger ReaderOk(s', x, u)} | u in s'.readers :: ReaderOk(s', x, u)
  {
    forall u | u in s'.readers ensures ReaderOk(s', x, u) { assert ReaderOk(s, x, u); }
  }

  lemma WalkMemory(s: Queue, x: Aux, s': Queue, t: ThreadId)
    requires Core(s, x) && t in s.readers && Still(s, s') && s.readers[t].at in {Lookup, Load}
    requires t in s'.readers && s'.readers == s.readers[t := s'.readers[t]]
    ensures forall k {:trigger BlockOk(s', x, k)} | k in s'.blocks :: BlockOk(s', x, k)
    ensures forall b {:trigger BaseOk(s', x, b)} | b in s'.index :: BaseOk(s', x, b)
    ensures forall i {:trigger SlotOk(s', x, i)} | 0 <= i < s'.ix.tail == |x.produced| :: SlotOk(s', x, i)
  {
    forall k | k in s'.blocks ensures BlockOk(s', x, k) { assert BlockOk(s, x, k); }
    forall b | b in s'.index ensures BaseOk(s', x, b) { assert BaseOk(s, x, b); }
    forall i | 0 <= i < s'.ix.tail ensures SlotOk(s', x, i) { assert SlotOk(s, x, i); }
  }

  lemma LookupInv(s: Queue, x: Aux, t: ThreadId)
    requires Core(s, x) && Enabled(s, Run(t)) && s.readers[t].at in {Lookup, Load}
    ensures Core(Step(s, Run(t)), AuxStep(s, x, Run(t)))
  {
    var r := s.readers[t];
    assert ReaderOk(s, x, t);
    assert SlotOk(s, x, r.pos);
    BaseFacts(r.pos);
    WalkInv(s, x, Step(s, Run(t)), t);
  }

  /** The element at r.pos leaves its slot. */
  ghost predicate Moves(s: Queue, x: Aux, s': Queue, x': Aux, t: ThreadId) {
    t in s.readers && t in s'.readers &&
    var r, r' := s.readers[t], s'.readers[t];
    && r.at == Move && s'.readers == s.readers[t := r'] && s'.readers.Keys == s.readers.Keys
    && r.block in s.blocks && r.pos % BLOCK_SIZE in s.blocks[r.block].slots
    && s' == s.(readers := s'.readers, blocks := s'.blocks)
    && s'.blocks == s.blocks[r.block := s.blocks[r.block].(slots := s.blocks[r.block].slots - {r.pos % BLOCK_SIZE})]
    && x' == x.(delivered := x.delivered[r.pos := s.blocks[r.block].slots[r.pos % BLOCK_SIZE]])
    && r' == r.(at := if r.pos + 1 == End(r) then Count else Move, pos := r.pos + 1)
    && r.pos < s.ix.tail && r.pos < |x.produced| && r.pos % BLOCK_SIZE == r.pos - r.base && x'.delivered[r.pos] == x.produced[r.pos]
  }

  lemma MoveEffect(s: Queue, x: Aux, t: ThreadId)
    requires Core(s, x) && Enabled(s, Run(t)) && s.readers[t].at == Move
    ensures Moves(s, x, Step(s, Run(t)), AuxStep(s, x, Run(t)), t)
  {
    var r := s.readers[t];
    assert ReaderOk(s, x, t);
    BaseUnique(r.pos, r.base);
    BaseFacts(r.pos);
    assert SlotOk(s, x, r.pos);
    assert BaseOk(s, x, r.base);
    assert Step(s, Run(t)).readers.Keys == s.readers.Keys;
  }

  lemma MoveBlocks(s: Queue, x: Aux, s': Queue, x': Aux, t: ThreadId)
    requires Core(s, x) && Moves(s, x, s', x', t)
    ensures s'.blocks.Keys == x'.place.Keys
    ensures forall k {:trigger BlockOk(s', x', k)} | k in s'.blocks :: BlockOk(s', x', k)
    ensures forall b {:trigger BaseOk(s', x', b)} | b in s'.index :: BaseOk(s', x', b)
  {
    assert ReaderOk(s, x, t);
    assert s'.blocks.Keys == x'.place.Keys;
    forall k | k in s'.blocks ensures BlockOk(s', x', k) { assert BlockOk(s, x, k); }
    forall b | b in s'.index ensures BaseOk(s', x', b) { assert BaseOk(s, x, b); }
  }

  lemma MoveSlots(s: Queue, x: Aux, s': Queue, x': Aux, t: ThreadId)
    requires Core(s, x) && Moves(s, x, s', x', t)
    ensures forall i {:trigger SlotOk(s', x', i)} | 0 <= i < s'.ix.tail == |x'.produced| :: SlotOk(s', x', i)
    ensures forall i {:trigger ClaimOk(s', x', i)} | 0 <= i < |x'.claimant| :: ClaimOk(s', x', i)
  {
    assert ReaderOk(s, x, t);
    forall i | 0 <= i < s'.ix.tail ensures SlotOk(s', x', i) { MoveSlot(s, x, s', x', t, i); }
    forall i | 0 <= i < |x'.claimant| ensures ClaimOk(s', x', i) { assert ClaimOk(s, x, i); }
  }

  lemma MoveInv(s: Queue, x: Aux, s': Queue, x': Aux, t: ThreadId)
    requires Core(s, x) && Moves(s, x, s', x', t)
    ensures Core(s', x')
  {
    assert ReaderOk(s, x, t);
    MoveBlocks(s, x, s', x', t);
    MoveSlots(s, x, s', x', t);
    forall u | u in s'.readers ensures ReaderOk(s', x', u) { MoveReader(s, x, s', x', t, u); }
    MoveProducer(s, x, s', x', t);
    assert s'.blocks.Keys == s.blocks.Keys;
  }

  lemma MoveProducer(s: Queue, x: Aux, s': Queue, x': Aux, t: ThreadId)
    requires Core(s, x) && Moves(s, x, s', x', t)
    ensures ProducerOk(s', x')
  {
    assert ReaderOk(s, x, t) && BaseOk(s, x, s.readers[t].base);
    BaseFacts(s.ix.tail);
    if BaseOf(s.ix.tail) in s.index { assert BaseOk(s, x, BaseOf(s.ix.tail)); }
  }

  lemma MoveReader(s: Queue, x: Aux, s': Queue, x': Aux, t: ThreadId, u: ThreadId)
    requires Core(s, x) && Moves(s, x, s', x', t) && u in s.readers
    ensures u in s'.ix.consumers && ReaderOk(s', x', u)
  {
    assert s'.blocks.Keys == s.blocks.Keys;
    if u == t {
      MoveSelf(s, x, s', x', t);
    } else {
      MoveOther(s, x, s', x', t, u);
    }
  }

  lemma MoveSelf(s: Queue, x: Aux, s': Queue, x': Aux, t: ThreadId)
    requires Moves(s, x, s', x', t) && t in s.ix.consumers && ReaderOk(s, x, t) && s'.blocks.Keys == s.blocks.Keys
    ensures t in s'.ix.consumers && ReaderOk(s', x', t)
  {
  }

  lemma MoveOther(s: Queue, x: Aux, s': Queue, x': Aux, t: ThreadId, u: ThreadId)
    requires Core(s, x) && Moves(s, x, s', x', t) && u in s.readers && u != t && s'.blocks.Keys == s.blocks.Keys
    ensures u in s'.ix.consumers && ReaderOk(s', x', u)
  {
    assert ReaderOk(s, x, t) && ReaderOk(s, x, u);
    assert x.claimant[s.readers[t].pos] == t;
  }

  lemma MoveSlot(s: Queue, x: Aux, s': Queue, x': Aux, t: ThreadId, i: nat)
    requires Core(s, x) && Moves(s, x, s', x', t) && i < s.ix.tail
    ensures SlotOk(s', x', i)
  {
    assert ReaderOk(s, x, t) && SlotOk(s, x, i);
    assert BaseOk(s, x, BaseOf(i)) && BaseOk(s, x, s.readers[t].base);
    MovedSlot(s, x, s', x', t, i);
  }

  lemma MovedSlot(s: Queue, x: Aux, s': Queue, x': Aux, t: ThreadId, i: nat)
    requires Moves(s, x, s', x', t) && t in s.ix.consumers && ReaderOk(s, x, t)
    requires i < s.ix.tail == |x.produced| && SlotOk(s, x, i)
    requires BaseOk(s, x, BaseOf(i)) && s.readers[t].base in s.index && BaseOk(s, x, s.readers[t].base)
    requires s.readers[t].pos < s.ix.head
    ensures SlotOk(s', x', i)
  {
    BaseFacts(i);
  }

  /** What leaving the queue does to the indices: the consumer goes idle, and that is all. */
  lemma LeaveIndices(ix: Tickets.Indices, fates: seq<Tickets.Ticket>, t: ThreadId)
    requires Tickets.Inv(ix, fates) && t in ix.consumers && ix.consumers[t].at == Tickets.Claimed
    ensures var ix' := Tickets.Step(ix, Tickets.Continue(t));
            && Tickets.Inv(ix', Tickets.AuxStep(ix, fates, Tickets.Continue(t)))
            && ix'.head == ix.head && ix'.tail == ix.tail && ix'.consumers.Keys == ix.consumers.Keys
            && ix'.consumers[t].at == Tickets.Idle
            && forall u | u in ix.consumers && u != t :: ix'.consumers[u] == ix.consumers[u]
  {
    Tickets.StepInv(ix, fates, Tickets.Continue(t));
  }

  /** The indices [r.start, r.pos) are counted; block and reader are as given. */
  ghost predicate Counts(s: Queue, x: Aux, s': Queue, x': Aux, t: ThreadId) {
    t in s.readers && t in s'.readers && t in s'.ix.consumers && s.readers[t].start <= s.readers[t].pos &&
    var r, r' := s.readers[t], s'.readers[t];
    && r.at == Count && s'.readers == s.readers[t := r'] && s'.readers.Keys == s.readers.Keys
    && s'.index == s.index && s'.free == s.free && s'.tailBlock == s.tailBlock && s'.producer == s.producer
    && s'.ix.tail == s.ix.tail && s'.ix.head == s.ix.head && s'.ix.consumers.Keys == s.ix.consumers.Keys
    && (forall u | u in s.ix.consumers && u != t :: s'.ix.consumers[u] == s.ix.consumers[u])
    && (s'.ix.consumers[t].at == Tickets.Claimed <==> r'.at != Waiting)
    && r.block in s.blocks
    && s'.blocks == s.blocks[r.block := s.blocks[r.block].(done := s.blocks[r.block].done + r.pos - r.start)]
    && x' == x.(fates := x'.fates, counted := x.counted + Range(r.start, r.pos), retirer := x'.retirer)
    && r' == r.(at := r'.at, start := r.pos)
    && (if s'.blocks[r.block].done == BLOCK_SIZE
        then r'.at == Clear && x'.retirer == x.retirer[r.base := t]
        else x'.retirer == x.retirer && r'.at == if r.pos == r.stop then Waiting else Lookup)
  }

  lemma CountEffect(s: Queue, x: Aux, t: ThreadId)
    requires Inv(s, x) && Enabled(s, Run(t)) && s.readers[t].at == Count
    ensures Counts(s, x, Step(s, Run(t)), AuxStep(s, x, Run(t)), t)
    ensures Tickets.Inv(Step(s, Run(t)).ix, AuxStep(s, x, Run(t)).fates)
  {
    assert ReaderOk(s, x, t);
    assert BaseOk(s, x, s.readers[t].base);
    LeaveIndices(s.ix, x.fates, t);
    CountMemory(s, x, t);
  }

  lemma CountMemory(s: Queue, x: Aux, t: ThreadId)
    requires t in s.readers && t in s.ix.consumers && s.readers[t].at == Count && Enabled(s, Run(t))
    requires var r := s.readers[t]; r.start <= r.pos && r.block in s.blocks
    ensures var s', x', r := Step(s, Run(t)), AuxStep(s, x, Run(t)), s.readers[t];
            && s' == s.(ix := s'.ix, readers := s'.readers, blocks := s'.blocks)
            && s'.blocks == s.blocks[r.block := s.blocks[r.block].(done := s.blocks[r.block].done + r.pos - r.start)]
            && s'.readers.Keys == s.readers.Keys && s'.readers == s.readers[t := s'.readers[t]]
            && s'.ix == (if s'.readers[t].at == Waiting then Tickets.Step(s.ix, Tickets.Continue(t)) else s.ix)
            && x'.fates == (if s'.readers[t].at == Waiting then Tickets.AuxStep(s.ix, x.fates, Tickets.Continue(t)) else x.fates)
            && x' == x.(fates := x'.fates, counted := x.counted + Range(r.start, r.pos), retirer := x'.retirer)
            && s'.readers[t] == r.(at := s'.readers[t].at, start := r.pos)
            && (if s'.blocks[r.block].done == BLOCK_SIZE
                then s'.readers[t].at == Clear && x'.retirer == x.retirer[r.base := t]
                else x'.retirer == x.retirer && s'.readers[t].at == if r.pos == r.stop then Waiting else Lookup)
  {
    var s' := Step(s, Run(t));
    assert s'.readers.Keys == s.readers.Keys;
  }

  lemma CountBlocks(s: Queue, x: Aux, s': Queue, x': Aux, t: ThreadId)
    requires Core(s, x) && Counts(s, x, s', x', t)
    ensures s'.blocks.Keys == x'.place.Keys
    ensures forall k {:trigger BlockOk(s', x', k)} | k in s'.blocks :: BlockOk(s', x', k)
    ensures forall b {:trigger BaseOk(s', x', b)} | b in s'.index :: BaseOk(s', x', b)
  {
    assert ReaderOk(s, x, t) && BaseOk(s, x, s.readers[t].base);
    assert s'.blocks.Keys == x'.place.Keys;
    forall k | k in s'.blocks ensures BlockOk(s', x', k) { CountBlock(s, x, s', x', t, k); }
    forall b | b in s'.index ensures BaseOk(s', x', b) { CountBase(s, x, s', x', t, b); }
  }

  lemma CountSlots(s: Queue, x: Aux, s': Queue, x': Aux, t: ThreadId)
    requires Core(s, x) && Counts(s, x, s', x', t)
    ensures forall i {:trigger SlotOk(s', x', i)} | 0 <= i < s'.ix.tail == |x'.produced| :: SlotOk(s', x', i)
    ensures forall i {:trigger ClaimOk(s', x', i)} | 0 <= i < |x'.claimant| :: ClaimOk(s', x', i)
  {
    assert ReaderOk(s, x, t) && BaseOk(s, x, s.readers[t].base);
    forall i | 0 <= i < s'.ix.tail ensures SlotOk(s', x', i) { assert SlotOk(s, x, i); }
    forall i | 0 <= i < |x'.claimant| ensures ClaimOk(s', x', i) { assert ClaimOk(s, x, i); }
  }

  lemma CountReaders(s: Queue, x: Aux, s': Queue, x': Aux, t: ThreadId)
    requires Core(s, x) && Counts(s, x, s', x', t)
    ensures forall u {:trigger ReaderOk(s', x', u)} | u in s'.readers :: u in s'.ix.consumers && ReaderOk(s', x', u)
  {
    forall u | u in s'.readers ensures u in s'.ix.consumers && ReaderOk(s', x', u) { CountReader(s, x, s', x', t, u); }
  }

  lemma CountInv(s: Queue, x: Aux, s': Queue, x': Aux, t: ThreadId)
    requires Core(s, x) && Counts(s, x, s', x', t)
    ensures Core(s', x')
  {
    var r := s.readers[t];
    assert ReaderOk(s, x, t);
    assert BaseOk(s, x, r.base);
    CountBlocks(s, x, s', x', t);
    CountSlots(s, x, s', x', t);
    CountReaders(s, x, s', x', t);
  }

  lemma CountBlock(s: Queue, x: Aux, s': Queue, x': Aux, t: ThreadId, k: BlockId)
    requires Core(s, x) && Counts(s, x, s', x', t) && k in s.blocks
    ensures k in x'.place && BlockOk(s', x', k)
  {
    var r := s.readers[t];
    assert ReaderOk(s, x, t) && BlockOk(s, x, k) && BaseOk(s, x, r.base);
    if x.place[k].Home? {
      assert x.place[k].base == r.base ==> k == r.block;
      CountedMore(s, x, s', x', t, x.place[k].base);
    }
  }

  lemma CountedMore(s: Queue, x: Aux, s': Queue, x': Aux, t: ThreadId, b: nat)
    requires Core(s, x) && Counts(s, x, s', x', t) && b in s.index
    ensures var r := s.readers[t];
            CountIn(x'.counted, b, BLOCK_SIZE) ==
            CountIn(x.counted, b, BLOCK_SIZE) + if b == r.base then r.pos - r.start else 0
  {
    var r := s.readers[t];
    assert ReaderOk(s, x, t) && BaseOk(s, x, b) && BaseOk(s, x, r.base);
    assert x'.counted == x.counted + Range(r.start, r.pos) && r.base <= r.start && r.pos <= r.base + BLOCK_SIZE;
    if b == r.base {
      CountAdd(x.counted, b, BLOCK_SIZE, r.start, r.pos);
    } else {
      Apart(b, r.base);
      CountSame(x.counted, x'.counted, b, BLOCK_SIZE);
    }
  }

  lemma Apart(b: nat, c: nat)
    requires b % BLOCK_SIZE == c % BLOCK_SIZE == 0 && b != c
    ensures b + BLOCK_SIZE <= c || c + BLOCK_SIZE <= b
  {
  }

  lemma CountBase(s: Queue, x: Aux, s': Queue, x': Aux, t: ThreadId, b: nat)
    requires Core(s, x) && Counts(s, x, s', x', t) && b in s.index
    ensures BaseOk(s', x', b)
  {
    var r := s.readers[t];
    assert ReaderOk(s, x, t) && BaseOk(s, x, b) && BaseOk(s, x, r.base);
    if b == r.base {
      CountFills(s, x, s', x', t);
    } else {
      Apart(b, r.base);
      assert AllIn(x'.counted, b) == AllIn(x.counted, b);
    }
  }

  lemma CountReader(s: Queue, x: Aux, s': Queue, x': Aux, t: ThreadId, u: ThreadId)
    requires Core(s, x) && Counts(s, x, s', x', t) && u in s.readers
    ensures u in s'.ix.consumers && ReaderOk(s', x', u)
  {
    var r := s.readers[t];
    assert ReaderOk(s, x, t) && ReaderOk(s, x, u) && BaseOk(s, x, r.base);
    assert s'.blocks.Keys == s.blocks.Keys;
    if u == t {
      CountFills(s, x, s', x', t);
      CountSelf(s, x, s', x', t);
    } else {
      CountOther(s, x, s', x', t, u);
    }
  }

  lemma CountSelf(s: Queue, x: Aux, s': Queue, x': Aux, t: ThreadId)
    requires Counts(s, x, s', x', t) && t in s.ix.consumers && ReaderOk(s, x, t) && s'.blocks.Keys == s.blocks.Keys
    requires s'.blocks[s.readers[t].block].done == BLOCK_SIZE <==> AllIn(x'.counted, s.readers[t].base)
    ensures t in s'.ix.consumers && ReaderOk(s', x', t)
  {
  }

  lemma CountOther(s: Queue, x: Aux, s': Queue, x': Aux, t: ThreadId, u: ThreadId)
    requires Counts(s, x, s', x', t) && t in s.ix.consumers && ReaderOk(s, x, t) && s.readers[t].stop <= |x.claimant|
    requires u in s.readers && u in s.ix.consumers && ReaderOk(s, x, u) && u != t
    requires s'.blocks.Keys == s.blocks.Keys
    ensures u in s'.ix.consumers && ReaderOk(s', x', u)
  {
    var r := s.readers[t];
    assert forall i | r.start <= i < r.pos :: x.claimant[i] == t;
    assert s.readers[u].at == Clear && s.readers[u].base == r.base ==> r.start in x.counted;
  }

  /** The counter is full only when every index of the block is counted. */
  lemma CountFills(s: Queue, x: Aux, s': Queue, x': Aux, t: ThreadId)
    requires Core(s, x) && Counts(s, x, s', x', t)
    ensures var r := s.readers[t]; s'.blocks[r.block].done == BLOCK_SIZE <==> AllIn(x'.counted, r.base)
  {
    var r := s.readers[t];
    assert ReaderOk(s, x, t) && BaseOk(s, x, r.base) && BlockOk(s, x, r.block);
    CountedMore(s, x, s', x', t, r.base);
    CountFull(x'.counted, r.base, BLOCK_SIZE);
  }

  /** The block leaves the index. */
  ghost predicate Clears(s: Queue, x: Aux, s': Queue, x': Aux, t: ThreadId) {
    t in s.readers && t in s'.readers &&
    var r := s.readers[t];
    && r.at == Clear && s'.readers == s.readers[t := r.(at := Release)] && s'.readers.Keys == s.readers.Keys
    && s' == s.(readers := s'.readers, index := s.index[r.base := None])
    && x' == x.(place := x.place[r.block := Leaving(t)])
    && r.block in s.blocks && r.base + BLOCK_SIZE <= s.ix.tail && AllIn(x.counted, r.base)
  }

  lemma ClearEffect(s: Queue, x: Aux, t: ThreadId)
    requires Core(s, x) && Enabled(s, Run(t)) && s.readers[t].at == Clear
    ensures Clears(s, x, Step(s, Run(t)), AuxStep(s, x, Run(t)), t)
  {
    var r := s.readers[t];
    assert ReaderOk(s, x, t);
    assert BaseOk(s, x, r.base);
    assert r.base + BLOCK_SIZE - 1 in x.counted;
    assert Step(s, Run(t)).readers.Keys == s.readers.Keys;
  }

  lemma ClearBlocks(s: Queue, x: Aux, s': Queue, x': Aux, t: ThreadId)
    requires Core(s, x) && Clears(s, x, s', x', t)
    ensures s'.blocks.Keys == x'.place.Keys
    ensures forall k {:trigger BlockOk(s', x', k)} | k in s'.blocks :: BlockOk(s', x', k)
    ensures forall b {:trigger BaseOk(s', x', b)} | b in s'.index :: BaseOk(s', x', b)
  {
    assert ReaderOk(s, x, t) && BaseOk(s, x, s.readers[t].base);
    BaseFacts(s.ix.tail);
    assert s'.blocks.Keys == x'.place.Keys;
    forall k | k in s'.blocks ensures BlockOk(s', x', k) { assert BlockOk(s, x, k); }
    forall b | b in s'.index ensures BaseOk(s', x', b) { assert BaseOk(s, x, b); }
  }

  lemma ClearSlots(s: Queue, x: Aux, s': Queue, x': Aux, t: ThreadId)
    requires Core(s, x) && Clears(s, x, s', x', t)
    ensures forall i {:trigger SlotOk(s', x', i)} | 0 <= i < s'.ix.tail == |x'.produced| :: SlotOk(s', x', i)
    ensures forall i {:trigger ClaimOk(s', x', i)} | 0 <= i < |x'.claimant| :: ClaimOk(s', x', i)
  {
    assert ReaderOk(s, x, t) && BaseOk(s, x, s.readers[t].base);
    forall i | 0 <= i < s'.ix.tail ensures SlotOk(s', x', i) { assert SlotOk(s, x, i); BaseFacts(i); }
    forall i | 0 <= i < |x'.claimant| ensures ClaimOk(s', x', i) { assert ClaimOk(s, x, i); }
  }

  lemma ClearReaders(s: Queue, x: Aux, s': Queue, x': Aux, t: ThreadId)
    requires Core(s, x) && Clears(s, x, s', x', t) && s'.blocks.Keys == x'.place.Keys
    ensures forall u {:trigger ReaderOk(s', x', u)} | u in s'.readers :: u in s'.ix.consumers && ReaderOk(s', x', u)
  {
    forall u | u in s'.readers ensures u in s'.ix.consumers && ReaderOk(s', x', u) {
      assert ReaderOk(s, x, t) && ReaderOk(s, x, u) && BaseOk(s, x, s.readers[t].base);
      ClearReader(s, x, s', x', t, u);
    }
  }

  lemma ClearInv(s: Queue, x: Aux, s': Queue, x': Aux, t: ThreadId)
    requires Core(s, x) && Clears(s, x, s', x', t)
    ensures Core(s', x')
  {
    assert ReaderOk(s, x, t);
    BaseFacts(s.ix.tail);
    assert BaseOk(s, x, s.readers[t].base);
    ClearBlocks(s, x, s', x', t);
    ClearSlots(s, x, s', x', t);
    ClearReaders(s, x, s', x', t);
    assert s'.blocks.Keys == x'.place.Keys;
  }

  lemma ClearReader(s: Queue, x: Aux, s': Queue, x': Aux, t: ThreadId, u: ThreadId)
    requires Clears(s, x, s', x', t) && t in s.ix.consumers && ReaderOk(s, x, t)
    requires u in s.readers && u in s.ix.consumers && ReaderOk(s, x, u)
    requires s'.blocks.Keys == s.blocks.Keys == x'.place.Keys
    requires s.readers[t].base in s.index && BaseOk(s, x, s.readers[t].base)
    ensures u in s'.ix.consumers && ReaderOk(s', x', u)
  {
    var r, start := s.readers[t], s.readers[u].start;
    assert r.base <= start < r.base + BLOCK_SIZE ==> start in x.counted;
  }

  /** The block goes back; the reader goes on or leaves. */
  ghost predicate Releases(s: Queue, x: Aux, s': Queue, x': Aux, t: ThreadId) {
    t in s.readers && t in s'.readers && t in s'.ix.consumers && s.readers[t].start <= s.readers[t].pos &&
    var r, r' := s.readers[t], s'.readers[t];
    && r.at == Release && s'.readers == s.readers[t := r'] && s'.readers.Keys == s.readers.Keys
    && s'.index == s.index && s'.blocks == s.blocks && s'.tailBlock == s.tailBlock && s'.producer == s.producer
    && s'.ix.tail == s.ix.tail && s'.ix.head == s.ix.head && s'.ix.consumers.Keys == s.ix.consumers.Keys
    && (forall u | u in s.ix.consumers && u != t :: s'.ix.consumers[u] == s.ix.consumers[u])
    && (s'.ix.consumers[t].at == Tickets.Claimed <==> r'.at != Waiting)
    && s'.free == s.free + {r.block}
    && x' == x.(fates := x'.fates, place := x.place[r.block := InFree])
    && r' == r.(at := if r.pos == r.stop then Waiting else Lookup)
  }

  lemma ReleaseEffect(s: Queue, x: Aux, t: ThreadId)
    requires Inv(s, x) && Enabled(s, Run(t)) && s.readers[t].at == Release
    ensures Releases(s, x, Step(s, Run(t)), AuxStep(s, x, Run(t)), t)
    ensures Tickets.Inv(Step(s, Run(t)).ix, AuxStep(s, x, Run(t)).fates)
  {
    assert ReaderOk(s, x, t);
    LeaveIndices(s.ix, x.fates, t);
    assert Step(s, Run(t)).readers.Keys == s.readers.Keys;
  }

  lemma ReleaseBlocks(s: Queue, x: Aux, s': Queue, x': Aux, t: ThreadId)
    requires Core(s, x) && Releases(s, x, s', x', t)
    ensures s'.blocks.Keys == x'.place.Keys
    ensures forall k {:trigger BlockOk(s', x', k)} | k in s'.blocks :: BlockOk(s', x', k)
    ensures forall b {:trigger BaseOk(s', x', b)} | b in s'.index :: BaseOk(s', x', b)
  {
    assert ReaderOk(s, x, t);
    assert s'.blocks.Keys == x'.place.Keys;
    forall k | k in s'.blocks ensures BlockOk(s', x', k) { assert BlockOk(s, x, k); }
    forall b | b in s'.index ensures BaseOk(s', x', b) { assert BaseOk(s, x, b); }
  }

  lemma ReleaseSlots(s: Queue, x: Aux, s': Queue, x': Aux, t: ThreadId)
    requires Core(s, x) && Releases(s, x, s', x', t)
    ensures forall i {:trigger SlotOk(s', x', i)} | 0 <= i < s'.ix.tail == |x'.produced| :: SlotOk(s', x', i)
    ensures forall i {:trigger ClaimOk(s', x', i)} | 0 <= i < |x'.claimant| :: ClaimOk(s', x', i)
  {
    assert ReaderOk(s, x, t);
    forall i | 0 <= i < s'.ix.tail ensures SlotOk(s', x', i) { assert SlotOk(s, x, i); }
    forall i | 0 <= i < |x'.claimant| ensures ClaimOk(s', x', i) { assert ClaimOk(s, x, i); }
  }

  lemma ReleaseReaders(s: Queue, x: Aux, s': Queue, x': Aux, t: ThreadId)
    requires Core(s, x) && Releases(s, x, s', x', t)
    ensures forall u {:trigger ReaderOk(s', x', u)} | u in s'.readers :: u in s'.ix.consumers && ReaderOk(s', x', u)
  {
    forall u | u in s'.readers ensures u in s'.ix.consumers && ReaderOk(s', x', u) { ReleaseReader(s, x, s', x', t, u); }
  }

  lemma ReleaseInv(s: Queue, x: Aux, s': Queue, x': Aux, t: ThreadId)
    requires Core(s, x) && Releases(s, x, s', x', t)
    ensures Core(s', x')
  {
    assert ReaderOk(s, x, t);
    ReleaseBlocks(s, x, s', x', t);
    ReleaseSlots(s, x, s', x', t);
    ReleaseReaders(s, x, s', x', t);
    assert s'.blocks.Keys == x'.place.Keys;
  }

  lemma ReleaseReader(s: Queue, x: Aux, s': Queue, x': Aux, t: ThreadId, u: ThreadId)
    requires Core(s, x) && Releases(s, x, s', x', t) && u in s.readers
    ensures u in s'.ix.consumers && ReaderOk(s', x', u)
  {
    assert ReaderOk(s, x, t) && ReaderOk(s, x, u);
    assert s.blocks.Keys == x.place.Keys;
    if u != t && s.readers[u].at == Release { assert x.place[s.readers[u].block] == Leaving(u); }
  }

  /** A consumer that draws tickets, or claims indices. */
  ghost predicate Draws(s: Queue, x: Aux, s': Queue, x': Aux, t: ThreadId) {
    t in s.readers && t in s'.readers && t in s'.ix.consumers &&
    var r, r' := s.readers[t], s'.readers[t];
    && r.at == Waiting && s'.readers == s.readers[t := r'] && s'.readers.Keys == s.readers.Keys
    && s' == s.(ix := s'.ix, readers := s'.readers)
    && s'.ix.tail == s.ix.tail && s'.ix.consumers.Keys == s.ix.consumers.Keys
    && s.ix.head <= s'.ix.head <= s.ix.tail
    && (forall u | u in s.ix.consumers && u != t :: s'.ix.consumers[u] == s.ix.consumers[u])
    && x' == x.(fates := x'.fates, claimant := x.claimant + seq(s'.ix.head - s.ix.head, _ => t))
    && if s'.ix.consumers[t].at == Tickets.Claimed
       then s.ix.head < s'.ix.head && r' == r.(at := Lookup, start := s.ix.head, pos := s.ix.head, stop := s'.ix.head)
       else s'.ix.head == s.ix.head && r' == r
  }

  lemma DrawsBlocks(s: Queue, x: Aux, s': Queue, x': Aux, t: ThreadId)
    requires Core(s, x) && Draws(s, x, s', x', t)
    ensures s'.blocks.Keys == x'.place.Keys
    ensures forall k {:trigger BlockOk(s', x', k)} | k in s'.blocks :: BlockOk(s', x', k)
    ensures forall b {:trigger BaseOk(s', x', b)} | b in s'.index :: BaseOk(s', x', b)
  {
    assert s'.blocks.Keys == x'.place.Keys;
    forall k | k in s'.blocks ensures BlockOk(s', x', k) { assert BlockOk(s, x, k); }
    forall b | b in s'.index ensures BaseOk(s', x', b) { assert BaseOk(s, x, b); }
  }

  lemma DrawsSlots(s: Queue, x: Aux, s': Queue, x': Aux, t: ThreadId)
    requires Core(s, x) && Draws(s, x, s', x', t)
    ensures forall i {:trigger SlotOk(s', x', i)} | 0 <= i < s'.ix.tail == |x'.produced| :: SlotOk(s', x', i)
    ensures forall i {:trigger ClaimOk(s', x', i)} | 0 <= i < |x'.claimant| :: ClaimOk(s', x', i)
  {
    assert ReaderOk(s, x, t);
    forall i | 0 <= i < s'.ix.tail ensures SlotOk(s', x', i) { assert SlotOk(s, x, i); }
    forall i | 0 <= i < |x'.claimant| ensures ClaimOk(s', x', i) {
      if i < |x.claimant| { assert ClaimOk(s, x, i); }
    }
  }

  lemma DrawsReaders(s: Queue, x: Aux, s': Queue, x': Aux, t: ThreadId)
    requires Core(s, x) && Draws(s, x, s', x', t)
    ensures forall u {:trigger ReaderOk(s', x', u)} | u in s'.readers :: u in s'.ix.consumers && ReaderOk(s', x', u)
  {
    forall u | u in s'.readers ensures u in s'.ix.consumers && ReaderOk(s', x', u) { DrawsReader(s, x, s', x', t, u); }
  }

  lemma DrawsInv(s: Queue, x: Aux, s': Queue, x': Aux, t: ThreadId)
    requires Core(s, x) && Draws(s, x, s', x', t)
    ensures Core(s', x')
  {
    assert ReaderOk(s, x, t);
    DrawsBlocks(s, x, s', x', t);
    DrawsSlots(s, x, s', x', t);
    DrawsReaders(s, x, s', x', t);
  }

  lemma DrawsReader(s: Queue, x: Aux, s': Queue, x': Aux, t: ThreadId, u: ThreadId)
    requires Core(s, x) && Draws(s, x, s', x', t) && u in s.readers
    ensures u in s'.ix.consumers && ReaderOk(s', x', u)
  {
    assert ReaderOk(s, x, u);
    assert forall i | 0 <= i < |x.claimant| :: x'.claimant[i] == x.claimant[i];
  }

  /** What a ticket operation of t does to the indices. */
  lemma TicketEffect(ix: Tickets.Indices, fates: seq<Tickets.Ticket>, a: Tickets.Action, t: ThreadId)
    requires Tickets.Inv(ix, fates) && Tickets.Near(ix, a) && Tickets.Enabled(ix, a)
    requires a == Tickets.Continue(t) || (a.Call? && a.caller == t)
    requires ix.consumers[t].at != Tickets.Claimed
    ensures var ix' := Tickets.Step(ix, a);
            && Tickets.Inv(ix', Tickets.AuxStep(ix, fates, a))
            && ix'.tail == ix.tail && ix'.consumers.Keys == ix.consumers.Keys
            && (forall u | u in ix.consumers && u != t :: ix'.consumers[u] == ix.consumers[u])
            && ix.head <= ix'.head <= ix'.tail
            && if ix'.consumers[t].at == Tickets.Claimed
               then ix'.consumers[t].first == ix.head && ix'.head == ix.head + ix'.consumers[t].actual
                    && ix.head < ix'.head
               else ix'.head == ix.head
  {
    Tickets.StepInv(ix, fates, a);
    Tickets.HeadBelowTail(ix, fates);
    Tickets.HeadBelowTail(Tickets.Step(ix, a), Tickets.AuxStep(ix, fates, a));
    assert Tickets.ConsumerOk(ix, fates, t);
  }

  lemma WaitingInv(s: Queue, x: Aux, a: Action)
    requires Inv(s, x) && Near(s, a) && Enabled(s, a)
    requires a.Call? || (a.Run? && s.readers[a.runner].at == Waiting)
    ensures Inv(Step(s, a), AuxStep(s, x, a))
  {
    var t := if a.Call? then a.caller else a.runner;
    var ta := if a.Call? then Tickets.Call(t, a.bulk, a.max) else Tickets.Continue(t);
    assert ReaderOk(s, x, t);
    TicketEffect(s.ix, x.fates, ta, t);
    WaitingDraws(s, x, a, t, ta);
    DrawsInv(s, x, Step(s, a), AuxStep(s, x, a), t);
  }

  lemma WaitingDraws(s: Queue, x: Aux, a: Action, t: ThreadId, ta: Tickets.Action)
    requires Enabled(s, a) && t in s.ix.consumers && (a.Call? ==> a.caller == t) && (a.Run? ==> a.runner == t)
    requires (a.Call? && ta == Tickets.Call(t, a.bulk, a.max)) || (a.Run? && ta == Tickets.Continue(t))
    requires t in s.readers && s.readers[t].at == Waiting && |x.claimant| == s.ix.head
    requires var ix' := Tickets.Step(s.ix, ta);
             && t in ix'.consumers && s.ix.head <= ix'.head
             && if ix'.consumers[t].at == Tickets.Claimed
                then ix'.consumers[t].first == s.ix.head && ix'.head == s.ix.head + ix'.consumers[t].actual && a.Run?
                else ix'.head == s.ix.head
    ensures var s', x', ix' := Step(s, a), AuxStep(s, x, a), Tickets.Step(s.ix, ta);
            && t in s'.readers && s'.readers == s.readers[t := s'.readers[t]] && s'.readers.Keys == s.readers.Keys
            && s' == s.(ix := ix', readers := s'.readers)
            && x' == x.(fates := Tickets.AuxStep(s.ix, x.fates, ta),
                        claimant := x.claimant + seq(ix'.head - s.ix.head, _ => t))
            && s'.readers[t] == if ix'.consumers[t].at == Tickets.Claimed
                                then s.readers[t].(at := Lookup, start := s.ix.head, pos := s.ix.head, stop := ix'.head)
                                else s.readers[t]
  {
    assert s.readers[t := s.readers[t]] == s.readers;
    assert x.claimant + [] == x.claimant;
    assert Step(s, a).readers.Keys == s.readers.Keys;
  }

  /** A step of the producer: entries with a block and blocks that consumers give back stay as they are. */
  ghost predicate Spares(s: Queue, x: Aux, s': Queue, x': Aux) {
    && s'.readers == s.readers && s'.ix.consumers == s.ix.consumers
    && x'.claimant == x.claimant && x'.counted == x.counted && x'.delivered == x.delivered && x'.retirer == x.retirer
    && (forall b {:trigger s.index[b]} | b in s.index && s.index[b].Some? :: b in s'.index && s'.index[b] == s.index[b])
    && (forall k {:trigger x.place[k]} | k in x.place && x.place[k].Leaving? ::
          k in s'.blocks && k in x'.place && x'.place[k] == x.place[k])
  }

  lemma ConsumersKept(s: Queue, x: Aux, s': Queue, x': Aux)
    requires Core(s, x) && Spares(s, x, s', x')
    ensures forall i {:trigger ClaimOk(s', x', i)} | 0 <= i < |x'.claimant| :: ClaimOk(s', x', i)
    ensures forall t {:trigger ReaderOk(s', x', t)} | t in s'.readers :: ReaderOk(s', x', t)
  {
    forall i | 0 <= i < |x'.claimant| ensures ClaimOk(s', x', i) { assert ClaimOk(s, x, i); }
    forall t | t in s'.readers ensures ReaderOk(s', x', t) { assert ReaderOk(s, x, t); }
  }

  lemma CheckInv(s: Queue, x: Aux, s': Queue)
    requires Core(s, x) && s' == s.(producer := s'.producer)
    requires s.producer.at in {Ready, CheckHead} && s'.producer.at in {Ready, CheckHead, InsertEntry, Construct}
    requires ProducerOk(s', x)
    ensures Core(s', x)
  {
    forall k | k in s'.blocks ensures BlockOk(s', x, k) { assert BlockOk(s, x, k); }
    forall b | b in s'.index ensures BaseOk(s', x, b) { assert BaseOk(s, x, b); }
    forall i | 0 <= i < s'.ix.tail ensures SlotOk(s', x, i) { assert SlotOk(s, x, i); }
    ConsumersKept(s, x, s', x);
  }

  lemma InsertEntryInv(s: Queue, x: Aux, k: BlockId)
    requires Core(s, x) && Enabled(s, Produce(k)) && s.producer.at == InsertEntry
    ensures Core(Step(s, Produce(k)), x)
  {
    var s' := Step(s, Produce(k));
    assert s.ix.tail in s.index ==> BaseOk(s, x, s.ix.tail);
    forall k | k in s'.blocks ensures BlockOk(s', x, k) { assert BlockOk(s, x, k); }
    forall b | b in s'.index ensures BaseOk(s', x, b) { if b in s.index { assert BaseOk(s, x, b); } }
    forall i | 0 <= i < s'.ix.tail ensures SlotOk(s', x, i) { assert SlotOk(s, x, i); BaseFacts(i); }
    ConsumersKept(s, x, s', x);
    BaseFacts(s.ix.tail);
  }

  lemma RequisitionInv(s: Queue, x: Aux, c: BlockId)
    requires Core(s, x) && Enabled(s, Produce(c)) && s.producer.at == Requisition
    ensures Core(Step(s, Produce(c)), AuxStep(s, x, Produce(c)))
  {
    var s', x' := Step(s, Produce(c)), AuxStep(s, x, Produce(c));
    if c in s.blocks { assert BlockOk(s, x, c); }
    forall k | k in s'.blocks ensures BlockOk(s', x', k) { if k in s.blocks { assert BlockOk(s, x, k); } }
    forall b | b in s'.index ensures BaseOk(s', x', b) { assert BaseOk(s, x, b); }
    RequisitionSlots(s, x, s', x', c);
    ConsumersKept(s, x, s', x');
    assert s'.blocks.Keys == x'.place.Keys;
  }

  /** The block that is taken is in no slot's place. */
  lemma RequisitionSlots(s: Queue, x: Aux, s': Queue, x': Aux, c: BlockId)
    requires Core(s, x) && (c in s.blocks ==> c in s.free)
    requires s'.ix == s.ix && s'.index == s.index && c in s'.blocks && s'.blocks == s.blocks[c := s'.blocks[c]]
    requires x' == x.(place := x'.place)
    ensures forall i {:trigger SlotOk(s', x', i)} | 0 <= i < s'.ix.tail == |x'.produced| :: SlotOk(s', x', i)
  {
    forall i | 0 <= i < s'.ix.tail ensures SlotOk(s', x', i) {
      assert SlotOk(s, x, i) && BaseOk(s, x, BaseOf(i));
      if c in s.blocks { assert BlockOk(s, x, c); }
    }
  }

  lemma ResetInv(s: Queue, x: Aux, c: BlockId)
    requires Core(s, x) && Enabled(s, Produce(c)) && s.producer.at == Reset
    ensures Core(Step(s, Produce(c)), x)
  {
    var s' := Step(s, Produce(c));
    forall k | k in s'.blocks ensures BlockOk(s', x, k) { assert BlockOk(s, x, k); }
    forall b | b in s'.index ensures BaseOk(s', x, b) { assert BaseOk(s, x, b); }
    forall i | 0 <= i < s'.ix.tail ensures SlotOk(s', x, i) { assert SlotOk(s, x, i); }
    ConsumersKept(s, x, s', x);
    assert s'.blocks.Keys == x.place.Keys;
  }

  lemma StoreEntryInv(s: Queue, x: Aux, c: BlockId)
    requires Core(s, x) && Enabled(s, Produce(c)) && s.producer.at == StoreEntry
    ensures Core(Step(s, Produce(c)), AuxStep(s, x, Produce(c)))
  {
    var s', x' := Step(s, Produce(c)), AuxStep(s, x, Produce(c));
    StoreEntryBlocks(s, x, s', x');
    BaseFacts(s.ix.tail);
    forall i | 0 <= i < s'.ix.tail ensures SlotOk(s', x', i) { assert SlotOk(s, x, i); BaseFacts(i); }
    ConsumersKept(s, x, s', x');
    assert s'.blocks.Keys == x'.place.Keys;
  }

  /** No index of the new block is counted yet. */
  lemma StoreEntryBlocks(s: Queue, x: Aux, s': Queue, x': Aux)
    requires Core(s, x) && s.producer.at == StoreEntry
    requires s' == s.(index := s.index[s.ix.tail := Some(s.producer.block)], producer := s'.producer)
    requires s'.producer.at == SetTailBlock && x' == x.(place := x.place[s.producer.block := Home(s.ix.tail)])
    ensures s'.blocks.Keys == x'.place.Keys
    ensures forall k {:trigger BlockOk(s', x', k)} | k in s'.blocks :: BlockOk(s', x', k)
    ensures forall b {:trigger BaseOk(s', x', b)} | b in s'.index :: BaseOk(s', x', b)
  {
    assert BlockOk(s, x, s.producer.block);
    CountSame(x.counted, {}, s.ix.tail, BLOCK_SIZE);
    CountNone(s.ix.tail, BLOCK_SIZE);
    assert s.ix.tail !in x.counted;
    assert s'.blocks.Keys == x'.place.Keys;
    forall k | k in s'.blocks ensures BlockOk(s', x', k) { assert BlockOk(s, x, k); }
    forall b | b in s'.index ensures BaseOk(s', x', b) { assert BaseOk(s, x, b); }
  }

  lemma {:induction false} CountNone(lo: nat, n: nat)
    ensures CountIn({}, lo, n) == 0
  {
    if n > 0 { CountNone(lo, n - 1); }
  }

  lemma TailBlockInv(s: Queue, x: Aux, c: BlockId)
    requires Core(s, x) && Enabled(s, Produce(c)) && s.producer.at == SetTailBlock
    ensures Core(Step(s, Produce(c)), x)
  {
    var s' := Step(s, Produce(c));
    BaseFacts(s.ix.tail);
    BaseUnique(s.ix.tail, s.ix.tail);
    forall k | k in s'.blocks ensures BlockOk(s', x, k) { assert BlockOk(s, x, k); }
    forall b | b in s'.index ensures BaseOk(s', x, b) { assert BaseOk(s, x, b); }
    forall i | 0 <= i < s'.ix.tail ensures SlotOk(s', x, i) { assert SlotOk(s, x, i); }
    ConsumersKept(s, x, s', x);
  }

  lemma ConstructInv(s: Queue, x: Aux, c: BlockId)
    requires Core(s, x) && Enabled(s, Produce(c)) && s.producer.at == Construct
    ensures Core(Step(s, Produce(c)), x)
  {
    var s' := Step(s, Produce(c));
    var tail := s.ix.tail;
    BaseFacts(tail);
    assert BaseOk(s, x, BaseOf(tail));
    forall k | k in s'.blocks ensures BlockOk(s', x, k) { assert BlockOk(s, x, k); }
    forall b | b in s'.index ensures BaseOk(s', x, b) { assert BaseOk(s, x, b); }
    forall i | 0 <= i < s'.ix.tail ensures SlotOk(s', x, i) {
      assert SlotOk(s, x, i);
      BaseFacts(i);
      assert BaseOk(s, x, BaseOf(i));
    }
    ConsumersKept(s, x, s', x);
    assert s'.blocks.Keys == x.place.Keys;
  }

  lemma PublishInv(s: Queue, x: Aux, c: BlockId)
    requires Inv(s, x) && Enabled(s, Produce(c)) && s.producer.at == Publish
    ensures Inv(Step(s, Produce(c)), AuxStep(s, x, Produce(c)))
  {
    var s', x' := Step(s, Produce(c)), AuxStep(s, x, Produce(c));
    Tickets.StepInv(s.ix, x.fates, Tickets.Publish);
    PublishCore(s, x, s', x');
  }

  lemma PublishSlots(s: Queue, x: Aux, s': Queue, x': Aux)
    requires Core(s, x) && s.producer.at == Publish
    requires s' == s.(ix := s.ix.(tail := s.ix.tail + 1), producer := s.producer.(at := Ready))
    requires x' == x.(fates := x'.fates, produced := x.produced + [s.producer.element])
    ensures forall i {:trigger SlotOk(s', x', i)} | 0 <= i < s'.ix.tail == |x'.produced| :: SlotOk(s', x', i)
  {
    BaseFacts(s.ix.tail);
    forall i | 0 <= i < s'.ix.tail ensures SlotOk(s', x', i) { if i < s.ix.tail { assert SlotOk(s, x, i); } }
  }

  lemma PublishProducer(s: Queue, x: Aux, s': Queue, x': Aux)
    requires ProducerOk(s, x) && s.producer.at == Publish
    requires s' == s.(ix := s.ix.(tail := s.ix.tail + 1), producer := s.producer.(at := Ready))
    ensures ProducerOk(s', x')
  {
    var tail := s.ix.tail;
    BaseFacts(tail);
    BaseFacts(tail + 1);
    if (tail + 1) % BLOCK_SIZE != 0 { BaseUnique(tail + 1, BaseOf(tail)); }
  }

  lemma PublishCore(s: Queue, x: Aux, s': Queue, x': Aux)
    requires Core(s, x) && s.producer.at == Publish
    requires s' == s.(ix := s.ix.(tail := s.ix.tail + 1), producer := s.producer.(at := Ready))
    requires x' == x.(fates := x'.fates, produced := x.produced + [s.producer.element])
    ensures Core(s', x')
  {
    BaseFacts(s.ix.tail);
    PublishProducer(s, x, s', x');
    forall k | k in s'.blocks ensures BlockOk(s', x', k) { assert BlockOk(s, x, k); }
    forall b | b in s'.index ensures BaseOk(s', x', b) { assert BaseOk(s, x, b); }
    PublishSlots(s, x, s', x');
    ConsumersKept(s, x, s', x');
  }

  lemma ProduceInv(s: Queue, x: Aux, c: BlockId)
    requires Inv(s, x) && Enabled(s, Produce(c))
    ensures Inv(Step(s, Produce(c)), AuxStep(s, x, Produce(c)))
  {
    match s.producer.at {
      case CheckHead => CheckInv(s, x, Step(s, Produce(c)));
      case InsertEntry => InsertEntryInv(s, x, c);
      case Requisition => RequisitionInv(s, x, c);
      case Reset => ResetInv(s, x, c);
      case StoreEntry => StoreEntryInv(s, x, c);
      case SetTailBlock => TailBlockInv(s, x, c);
      case Construct => ConstructInv(s, x, c);
      case Publish => PublishInv(s, x, c);
    }
  }

  /** Every atomic operation of the producer and of every consumer keeps the invariant. */
  lemma StepInv(s: Queue, x: Aux, a: Action)
    requires Inv(s, x) && Near(s, a)
    ensures Inv(Step(s, a), AuxStep(s, x, a))
  {
    if Enabled(s, a) {
      var s', x' := Step(s, a), AuxStep(s, x, a);
      match a {
        case Call(_, _, _) => WaitingInv(s, x, a);
        case Enqueue(_) => CheckInv(s, x, s');
        case Produce(c) => ProduceInv(s, x, c);
        case Run(t) =>
          match s.readers[t].at {
            case Waiting => WaitingInv(s, x, a);
            case Move => MoveEffect(s, x, t); MoveInv(s, x, s', x', t);
            case Count => CountEffect(s, x, t); CountInv(s, x, s', x', t);
            case Clear => ClearEffect(s, x, t); ClearInv(s, x, s', x', t);
            case Release => ReleaseEffect(s, x, t); ReleaseInv(s, x, s', x', t);
            case _ => LookupInv(s, x, t);
          }
      }
    }
  }

  // ---------------------------------------------------------------------------------------
  // Whole runs
  // ---------------------------------------------------------------------------------------

  function Init(threads: set<ThreadId>): Queue {
    Queue(Tickets.Init(threads), map[], map[], {}, 0, Producer(Ready, 0, 0),
          map t | t in threads :: Reader(Waiting, 0, 0, 0, 0, 0))
  }

  function Execute(threads: set<ThreadId>, steps: seq<Action>): Queue {
    if steps == [] then Init(threads) else Step(Execute(threads, steps[..|steps| - 1]), steps[|steps| - 1])
  }

  function History(threads: set<ThreadId>, steps: seq<Action>): Aux {
    if steps == [] then Aux([], [], map[], {}, [], map[], map[])
    else
      var before := steps[..|steps| - 1];
      AuxStep(Execute(threads, before), History(threads, before), steps[|steps| - 1])
  }

  predicate Timely(threads: set<ThreadId>, steps: seq<Action>) {
    steps == [] ||
    (Timely(threads, steps[..|steps| - 1]) && Near(Execute(threads, steps[..|steps| - 1]), steps[|steps| - 1]))
  }

  lemma {:induction false} ExecuteInv(threads: set<ThreadId>, steps: seq<Action>)
    requires Timely(threads, steps)
    ensures Inv(Execute(threads, steps), History(threads, steps))
  {
    if steps != [] {
      var before := steps[..|steps| - 1];
      ExecuteInv(threads, before);
      StepInv(Execute(threads, before), History(threads, before), steps[|steps| - 1]);
    }
  }

  /** Main theorem: what was taken out at an index is what was published there, and the index was claimed. */
  lemma DeliveredAsProduced(threads: set<ThreadId>, steps: seq<Action>, i: nat)
    requires Timely(threads, steps) && i in History(threads, steps).delivered
    ensures var x := History(threads, steps);
            i < Execute(threads, steps).ix.head <= |x.produced| && x.delivered[i] == x.produced[i]
  {
    ExecuteInv(threads, steps);
    assert SlotOk(Execute(threads, steps), History(threads, steps), i);
  }

  /** No element is taken twice, and only by the consumer that claimed its index; each consumer goes in index order. */
  lemma TakenOnceInOrder(threads: set<ThreadId>, steps: seq<Action>, t: ThreadId)
    requires Timely(threads, steps)
    requires t in Execute(threads, steps).readers && Execute(threads, steps).readers[t].at == Move
    ensures var x, pos := History(threads, steps), Execute(threads, steps).readers[t].pos;
            && pos !in x.delivered && pos < |x.claimant| && x.claimant[pos] == t
            && forall i :: 0 <= i < |x.claimant| && x.claimant[i] == t ==> (i in x.delivered <==> i < pos)
  {
    ExecuteInv(threads, steps);
    OwnOrder(Execute(threads, steps), History(threads, steps), t);
  }

  lemma OwnOrder(s: Queue, x: Aux, t: ThreadId)
    requires Inv(s, x) && t in s.readers && s.readers[t].at == Move
    ensures var pos := s.readers[t].pos;
            && pos !in x.delivered && pos < |x.claimant| && x.claimant[pos] == t
            && forall i :: 0 <= i < |x.claimant| && x.claimant[i] == t ==> (i in x.delivered <==> i < pos)
  {
    assert ReaderOk(s, x, t);
    forall i | 0 <= i < |x.claimant| && x.claimant[i] == t ensures i in x.delivered <==> i < s.readers[t].pos {
      assert ClaimOk(s, x, i) && SlotOk(s, x, i);
    }
  }

  /** With a single consumer the queue is first-in first-out: what is out is a prefix of what went in. */
  lemma SingleConsumerIsFifo(t: ThreadId, steps: seq<Action>, i: nat, j: nat)
    requires Timely({t}, steps)
    requires i < j && j in History({t}, steps).delivered
    ensures i in History({t}, steps).delivered
  {
    ExecuteInv({t}, steps);
    OnlyReader({t}, steps);
    SoleReaderOrder(Execute({t}, steps), History({t}, steps), t, i, j);
  }

  lemma SoleReaderOrder(s: Queue, x: Aux, t: ThreadId, i: nat, j: nat)
    requires Inv(s, x) && s.readers.Keys == {t} && i < j && j in x.delivered
    ensures i in x.delivered
  {
    assert SlotOk(s, x, i) && SlotOk(s, x, j);
    assert ClaimOk(s, x, i) && ClaimOk(s, x, j) && ReaderOk(s, x, t);
  }

  lemma {:induction false} OnlyReader(threads: set<ThreadId>, steps: seq<Action>)
    ensures Execute(threads, steps).readers.Keys == threads
  {
    if steps == [] {
      assert Init(threads).readers.Keys == threads;
    } else {
      OnlyReader(threads, steps[..|steps| - 1]);
      KeepReaders(Execute(threads, steps[..|steps| - 1]), steps[|steps| - 1]);
    }
  }

  lemma KeepReaders(s: Queue, a: Action)
    ensures Step(s, a).readers.Keys == s.readers.Keys
  {
    if Enabled(s, a) && a.Run? {
      var s', t := Step(s, a), a.runner;
      assert s'.readers == s.readers || s'.readers == s.readers[t := s'.readers[t]];
      assert s'.readers.Keys == s.readers.Keys;
    }
  }

  /** A block reported empty goes back once: two consumers never retire the same block. */
  lemma RetiredByOne(threads: set<ThreadId>, steps: seq<Action>, t: ThreadId, u: ThreadId)
    requires Timely(threads, steps)
    requires var s := Execute(threads, steps);
             t in s.readers && u in s.readers && s.readers[t].at in {Clear, Release} && s.readers[u].at in {Clear, Release}
             && s.readers[t].block == s.readers[u].block
    ensures t == u
  {
    ExecuteInv(threads, steps);
    var s, x := Execute(threads, steps), History(threads, steps);
    assert ReaderOk(s, x, t) && ReaderOk(s, x, u);
    if s.readers[t].at == Clear { assert BaseOk(s, x, s.readers[t].base); }
    if s.readers[u].at == Clear { assert BaseOk(s, x, s.readers[u].base); }
  }

  /** A block on the free list is not read from, not reported to, and is not where the next element goes. */
  lemma FreeIsUnused(threads: set<ThreadId>, steps: seq<Action>, k: BlockId)
    requires Timely(threads, steps) && k in Execute(threads, steps).free
    ensures var s := Execute(threads, steps);
            && (forall t | t in s.readers && s.readers[t].at in {Move, Count, Clear, Release} :: s.readers[t].block != k)
            && (s.ix.tail % BLOCK_SIZE != 0 || s.producer.at in {Construct, Publish} ==> s.tailBlock != k)
            && (s.producer.at in {Reset, StoreEntry, SetTailBlock} ==> s.producer.block != k)
  {
    ExecuteInv(threads, steps);
    FreeBlock(Execute(threads, steps), History(threads, steps), k);
  }

  lemma FreeBlock(s: Queue, x: Aux, k: BlockId)
    requires Inv(s, x) && k in s.free
    ensures forall t | t in s.readers && s.readers[t].at in {Move, Count, Clear, Release} :: s.readers[t].block != k
    ensures s.ix.tail % BLOCK_SIZE != 0 || s.producer.at in {Construct, Publish} ==> s.tailBlock != k
    ensures s.producer.at in {Reset, StoreEntry, SetTailBlock} ==> s.producer.block != k
  {
    assert BlockOk(s, x, k);
    forall t | t in s.readers && s.readers[t].at in {Move, Count, Clear, Release} ensures s.readers[t].block != k {
      assert ReaderOk(s, x, t);
      if s.readers[t].at != Release { assert BaseOk(s, x, s.readers[t].base); }
    }
    if BaseOf(s.ix.tail) in s.index { assert BaseOk(s, x, BaseOf(s.ix.tail)); }
    if s.ix.tail in s.index { assert BaseOk(s, x, s.ix.tail); }
  }

  /** Nothing is lost: when no consumer is at work, exactly the claimed elements are out. */
  lemma AllClaimedDelivered(threads: set<ThreadId>, steps: seq<Action>, i: nat)
    requires Timely(threads, steps)
    requires forall t | t in Execute(threads, steps).readers :: Execute(threads, steps).readers[t].at == Waiting
    ensures i in History(threads, steps).delivered <==> i < Execute(threads, steps).ix.head
  {
    ExecuteInv(threads, steps);
    var s, x := Execute(threads, steps), History(threads, steps);
    if i < s.ix.head { assert ClaimOk(s, x, i) && SlotOk(s, x, i); }
  }
}
