/**
 * The producer's side of an implicit producer (deflect/moodycamel/concurrentqueue.h, ImplicitProducer::enqueue):
 * the queue never grows too wide for its index, and an enqueue gets its element in.
 */
module QueueEnqueue {
  import opened Common
  import opened Modular
  import T = Tickets
  import opened ImplicitQueue

  /** A new block is begun only while the queue with it spans less than half of the index range, so it never spans more. */
  ghost predicate Narrow(s: Queue) {
    && s.ix.head <= s.ix.tail
    && (if s.ix.tail % BLOCK_SIZE == 0 && s.producer.at in {Ready, CheckHead} then s.ix.tail < s.ix.head + T.HALF
        else BaseOf(s.ix.tail) + BLOCK_SIZE < s.ix.head + T.HALF)
  }

  /** The producer's test of the head, on words. */
  lemma RoomIff(head: nat, tail: nat)
    requires head <= tail < head + T.HALF
    ensures T.CircularLess(T.Word(head), T.Word(tail + BLOCK_SIZE)) <==> tail + BLOCK_SIZE < head + T.HALF
  {
    T.SubWords(head, tail + BLOCK_SIZE);
    AddMultiple(head - (tail + BLOCK_SIZE), 1, T.WORD);
  }

  lemma NarrowStep(s: Queue, a: Action)
    requires Narrow(s) && Step(s, a).ix.head <= Step(s, a).ix.tail
    ensures Narrow(Step(s, a))
  {
    if Enabled(s, a) {
      if a.Produce? {
        NarrowProduce(s, a);
      } else {
        OthersKeepTail(s, a);
      }
    }
  }

  lemma OthersKeepTail(s: Queue, a: Action)
    requires Enabled(s, a) && !a.Produce?
    ensures Step(s, a).ix.tail == s.ix.tail && Step(s, a).ix.head >= s.ix.head
    ensures if a.Enqueue? then s.producer.at == Ready && Step(s, a).producer.at == (if s.ix.tail % BLOCK_SIZE == 0 then CheckHead else Construct)
            else Step(s, a).producer == s.producer
  {
  }

  lemma NarrowProduce(s: Queue, a: Action)
    requires Narrow(s) && Enabled(s, a) && a.Produce?
    ensures Narrow(Step(s, a))
  {
    if s.producer.at == CheckHead { RoomIff(s.ix.head, s.ix.tail); }
    if s.producer.at == Publish { NextBase(s.ix.tail); }
  }

  lemma NextBase(i: nat)
    ensures (i + 1) % BLOCK_SIZE != 0 ==> BaseOf(i + 1) == BaseOf(i)
    ensures (i + 1) % BLOCK_SIZE == 0 ==> i + 1 == BaseOf(i) + BLOCK_SIZE
  {
  }

  /** Main theorem: in no run do the elements inside span half of the index range. */
  lemma {:induction false} NeverTooWide(threads: set<ThreadId>, steps: seq<Action>)
    requires Timely(threads, steps)
    ensures Narrow(Execute(threads, steps))
    ensures Execute(threads, steps).ix.tail - Execute(threads, steps).ix.head < T.HALF
  {
    if steps == [] {
      assert Narrow(Init(threads));
    } else {
      var before := steps[..|steps| - 1];
      NeverTooWide(threads, before);
      ExecuteInv(threads, steps);
      NarrowStep(Execute(threads, before), steps[|steps| - 1]);
    }
    NextBase(Execute(threads, steps).ix.tail);
  }

  // ---------------------------------------------------------------------------------------
  // One enqueue, whatever the consumers do meanwhile
  // ---------------------------------------------------------------------------------------

  /** The operations that the producer still needs at most. */
  function Rank(at: ProducerLabel): nat {
    match at
    case Ready => 0
    case Publish => 1
    case Construct => 2
    case SetTailBlock => 3
    case StoreEntry => 4
    case Reset => 5
    case Requisition => 6
    case InsertEntry => 7
    case CheckHead => 8
  }

  /** The operations that the producer takes in more. */
  function Own(threads: set<ThreadId>, steps: seq<Action>, more: seq<Action>): nat
    decreases |more|
  {
    if more == [] then 0 else
    var before, a := more[..|more| - 1], more[|more| - 1];
    Own(threads, steps, before) + if a.Produce? && Enabled(Execute(threads, steps + before), a) then 1 else 0
  }

  /** A new block would make the queue too wide. */
  predicate Full(s: Queue) {
    s.ix.tail % BLOCK_SIZE == 0 && s.ix.tail + BLOCK_SIZE >= s.ix.head + T.HALF
  }

  /** While e is being enqueued nothing has come in; after that e has, or nothing if the queue was full. */
  ghost predicate Enters(s: Queue, x: Aux, e: Element, s': Queue, x': Aux) {
    && s'.ix.head >= s.ix.head
    && if s'.producer.at == Ready
       then (s'.ix.tail == s.ix.tail + 1 && x'.produced == x.produced + [e])
            || (s'.ix.tail == s.ix.tail && x'.produced == x.produced && Full(s))
       else s'.ix.tail == s.ix.tail && x'.produced == x.produced && s'.producer.element == e
            && (s'.producer.at == CheckHead ==> s.ix.tail % BLOCK_SIZE == 0)
  }

  lemma ProduceMoves(s: Queue, x: Aux, c: BlockId)
    requires Enabled(s, Produce(c)) && s.ix.head <= s.ix.tail < s.ix.head + T.HALF
    ensures var s', x' := Step(s, Produce(c)), AuxStep(s, x, Produce(c));
            && s'.ix.head == s.ix.head && s'.producer.element == s.producer.element
            && Rank(s'.producer.at) < Rank(s.producer.at) && s'.producer.at != CheckHead
            && (if s.producer.at == Publish
                then s'.ix.tail == s.ix.tail + 1 && x'.produced == x.produced + [s.producer.element]
                else s'.ix.tail == s.ix.tail && x'.produced == x.produced)
            && (s'.producer.at == Ready <==>
                  s.producer.at == Publish || (s.producer.at == CheckHead && s.ix.tail + BLOCK_SIZE >= s.ix.head + T.HALF))
  {
    if s.producer.at == CheckHead { RoomIff(s.ix.head, s.ix.tail); }
  }

  lemma OthersKeepProduced(s: Queue, x: Aux, a: Action)
    requires !a.Produce? && !a.Enqueue?
    ensures AuxStep(s, x, a).produced == x.produced
  {
  }

  lemma EntersOn(s: Queue, x: Aux, e: Element, s1: Queue, x1: Aux, a: Action)
    requires Enters(s, x, e, s1, x1) && !a.Enqueue? && s1.ix.head <= s1.ix.tail < s1.ix.head + T.HALF
    ensures var s2, x2 := Step(s1, a), AuxStep(s1, x1, a);
            && Enters(s, x, e, s2, x2)
            && Rank(s2.producer.at) + (if a.Produce? && Enabled(s1, a) then 1 else 0) <= Rank(s1.producer.at)
  {
    if Enabled(s1, a) {
      if a.Produce? {
        ProduceMoves(s1, x1, a.choice);
      } else {
        OthersKeepTail(s1, a);
        OthersKeepProduced(s1, x1, a);
      }
    }
  }

  /** One more operation. */
  lemma Extends(threads: set<ThreadId>, steps: seq<Action>, a: Action)
    ensures Execute(threads, steps + [a]) == Step(Execute(threads, steps), a)
    ensures History(threads, steps + [a]) == AuxStep(Execute(threads, steps), History(threads, steps), a)
    ensures Timely(threads, steps + [a]) <==> Timely(threads, steps) && Near(Execute(threads, steps), a)
  {
    assert (steps + [a])[..|steps + [a]| - 1] == steps;
  }

  lemma Begins(s: Queue, x: Aux, e: Element)
    requires s.producer.at == Ready
    ensures var s', x' := Step(s, Enqueue(e)), AuxStep(s, x, Enqueue(e));
            Enters(s, x, e, s', x') && Rank(s'.producer.at) == if s.ix.tail % BLOCK_SIZE == 0 then 8 else 2
  {
  }

  /**
   * Main theorem: whatever the consumers do meanwhile, an enqueue ends after at most eight operations of the
   * producer, two inside a block. Then its element is in, behind all others; it is refused only if a new block
   * is needed and would have made the queue too wide at the time of the call.
   */
  lemma {:induction false} EnqueueEnters(threads: set<ThreadId>, steps: seq<Action>, e: Element, more: seq<Action>)
    requires Timely(threads, steps + [Enqueue(e)] + more) && Execute(threads, steps).producer.at == Ready
    requires forall i :: 0 <= i < |more| ==> !more[i].Enqueue?
    ensures var s, x, all := Execute(threads, steps), History(threads, steps), steps + [Enqueue(e)] + more;
            && Enters(s, x, e, Execute(threads, all), History(threads, all))
            && Own(threads, steps + [Enqueue(e)], more) + Rank(Execute(threads, all).producer.at) <=
                 if s.ix.tail % BLOCK_SIZE == 0 then 8 else 2
    decreases |more|
  {
    var s, x, begun := Execute(threads, steps), History(threads, steps), steps + [Enqueue(e)];
    if more == [] {
      Extends(threads, steps, Enqueue(e));
      Begins(s, x, e);
      assert begun + more == begun;
    } else {
      var before, a := more[..|more| - 1], more[|more| - 1];
      assert begun + more == begun + before + [a];
      Extends(threads, begun + before, a);
      EnqueueEnters(threads, steps, e, before);
      NeverTooWide(threads, begun + before);
      EntersOn(s, x, e, Execute(threads, begun + before), History(threads, begun + before), a);
    }
  }

  /** The producer can always go on until then: some block can be requisitioned. */
  lemma ProducerGoesOn(s: Queue) returns (c: BlockId)
    requires s.producer.at != Ready
    ensures Enabled(s, Produce(c))
  {
    c := Fresh(s.blocks.Keys);
  }

  lemma {:induction false} Fresh(ks: set<BlockId>) returns (k: BlockId)
    ensures forall i | i in ks :: i < k
  {
    if ks == {} {
      k := 0;
    } else {
      var j :| j in ks;
      var above := Fresh(ks - {j});
      k := if above <= j then j + 1 else above;
      assert forall i | i in ks :: i == j || i in ks - {j};
    }
  }
}
