/**
 * The queue of module QueueOnRing gets on (deflect/moodycamel/concurrentqueue.h): each operation of the producer
 * inside enqueue, and of a consumer that has claimed indices, brings its call nearer to the end, whatever the
 * others do; but for the operations of the free list, which module FreeList deals with.
 */
module RingProgress {
  import opened Common
  import T = Tickets
  import Q = ImplicitQueue
  import B = BlockIndex
  import F = FreeList
  import QueueEnqueue
  import QueueCalls
  import opened QueueOnRing

  // ---------------------------------------------------------------------------------------
  // The producer
  // ---------------------------------------------------------------------------------------

  /** How far the producer still has to go in the ring, at the point where the queue waits for it. */
  function RingRank(at: B.ProducerLabel): nat {
    match at
    case Ready => 6
    case Check => 5
    case Grow => 4
    case StoreKey => 3
    case StoreTail => 2
    case Decide => 1
    case _ => 0
  }

  ghost predicate ProducerNearer(s: State, s': State) {
    var rank, rank' := QueueEnqueue.Rank(s.q.producer.at), QueueEnqueue.Rank(s'.q.producer.at);
    rank' < rank || (rank' == rank && RingRank(s'.ring.producer.at) < RingRank(s.ring.producer.at))
  }

  /** The producer is looking for a block, and does not come by one in this step. */
  predicate StillLooking(s: State, made: Option<Q.BlockId>) {
    && s.q.producer.at == Q.Requisition && ListLabel(s, PRODUCER) != F.GetFinish
    && !(ListLabel(s, PRODUCER) == F.Idle && made.Some?)
  }

  lemma QueueRank(q: Q.Queue, c: Q.BlockId)
    requires Q.Enabled(q, Q.Produce(c))
    ensures QueueEnqueue.Rank(Q.Step(q, Q.Produce(c)).producer.at) < QueueEnqueue.Rank(q.producer.at)
  {
  }

  lemma InsertRank(ring: B.Index)
    requires ring.producer.at in {B.Ready, B.Check, B.Grow, B.StoreKey, B.StoreTail}
    requires ring.producer.at == B.Grow ==> |ring.rings| <= B.MAX_LEVEL
    ensures var a := if ring.producer.at == B.Ready then B.Insert else B.Produce(true, 0);
            RingRank(B.Step(ring, a).producer.at) < RingRank(ring.producer.at)
  {
  }

  lemma StoreRank(ring: B.Index, k: Q.BlockId)
    requires ring.producer.at == B.Decide
    ensures RingRank(B.Step(ring, B.Produce(true, k)).producer.at) < RingRank(ring.producer.at)
  {
  }

  lemma Inserts(s: State, made: Option<Q.BlockId>)
    requires Enabled(s, Produce(made)) && s.q.producer.at == Q.InsertEntry && PhaseMatch(s.q, s.ring)
    ensures ProducerNearer(s, Step(s, Produce(made)))
  {
    if s.ring.producer.at == B.Decide { QueueRank(s.q, 0); } else { InsertRank(s.ring); }
  }

  lemma Stores(s: State, made: Option<Q.BlockId>)
    requires Enabled(s, Produce(made)) && s.q.producer.at == Q.StoreEntry && PhaseMatch(s.q, s.ring)
    ensures ProducerNearer(s, Step(s, Produce(made)))
  {
    if s.ring.producer.at == B.StoreValue { QueueRank(s.q, 0); } else { StoreRank(s.ring, s.q.producer.block); }
  }

  lemma Searches(s: State, made: Option<Q.BlockId>)
    requires Enabled(s, Produce(made)) && StillLooking(s, made)
    ensures var s' := Step(s, Produce(made));
            && s'.q == s.q && s'.ring == s.ring
            && s'.list == F.Step(s.list, PRODUCER, if ListLabel(s, PRODUCER) == F.Idle then F.CallTryGet else F.Continue)
  {
  }

  lemma Obtains(s: State, made: Option<Q.BlockId>)
    requires Enabled(s, Produce(made)) && s.q.producer.at == Q.Requisition && !StillLooking(s, made)
    requires ListLabel(s, PRODUCER) == F.GetFinish ==> ListNode(s, PRODUCER) in s.q.free
    requires made.Some? ==> made.value !in s.q.blocks
    ensures ProducerNearer(s, Step(s, Produce(made)))
  {
    QueueRank(s.q, if ListLabel(s, PRODUCER) == F.GetFinish then ListNode(s, PRODUCER) else made.value);
  }

  lemma GoesOn(s: State, made: Option<Q.BlockId>)
    requires Enabled(s, Produce(made)) && s.q.producer.at !in {Q.InsertEntry, Q.StoreEntry, Q.Requisition}
    ensures ProducerNearer(s, Step(s, Produce(made)))
  {
    QueueRank(s.q, 0);
  }

  /** In each step of its own the producer gets nearer to the end of its enqueue, or goes on looking for a block. */
  lemma ProduceHelps(s: State, x: Aux, made: Option<Q.BlockId>)
    requires Inv(s, x) && Enabled(s, Produce(made))
    ensures var s' := Step(s, Produce(made));
            if StillLooking(s, made) then
              && s'.q == s.q && s'.ring == s.ring
              && s'.list == F.Step(s.list, PRODUCER, if ListLabel(s, PRODUCER) == F.Idle then F.CallTryGet else F.Continue)
            else ProducerNearer(s, s')
  {
    if StillLooking(s, made) {
      Searches(s, made);
    } else if s.q.producer.at == Q.InsertEntry {
      Inserts(s, made);
    } else if s.q.producer.at == Q.StoreEntry {
      Stores(s, made);
    } else if s.q.producer.at == Q.Requisition {
      if ListLabel(s, PRODUCER) == F.GetFinish { HandedFree(s, x); }
      Obtains(s, made);
    } else {
      GoesOn(s, made);
    }
  }

  // ---------------------------------------------------------------------------------------
  // The consumers
  // ---------------------------------------------------------------------------------------

  ghost predicate ConsumerNearer(s: State, t: ThreadId, s': State)
    requires t in s.q.readers && t in s.ring.readers
  {
    && t in s'.q.readers && t in s'.ring.readers
    && var effort, effort' := QueueCalls.Effort(s.q.readers[t]), QueueCalls.Effort(s'.q.readers[t]);
    effort' < effort || (effort' == effort && B.ToRead(s'.ring.readers[t]) < B.ToRead(s.ring.readers[t]))
  }

  /** In each step of its own a consumer that has claimed gets nearer to its end, or goes on adding a block to the list. */
  lemma RunHelps(s: State, x: Aux, t: ThreadId)
    requires Inv(s, x) && Enabled(s, Run(t)) && t in s.ring.readers
    requires s.q.readers[t].at != Q.Waiting || ListLabel(s, Me(t)) != F.Idle
    ensures var s' := Step(s, Run(t));
            if ListLabel(s, Me(t)) != F.Idle
            then s'.q == s.q && s'.ring == s.ring && s'.list == F.Step(s.list, Me(t), F.Continue)
            else ConsumerNearer(s, t, s')
  {
    if ListLabel(s, Me(t)) == F.Idle {
      if s.q.readers[t].at == Q.Load && RingLabel(s, t) != B.Found { ReadsOn(s, x, t); } else { Consumes(s, x, t); }
    }
  }

  lemma ReadsOn(s: State, x: Aux, t: ThreadId)
    requires Inv(s, x) && Enabled(s, Run(t)) && t in s.ring.readers && ListLabel(s, Me(t)) == F.Idle
    requires s.q.readers[t].at == Q.Load && RingLabel(s, t) != B.Found
    ensures ConsumerNearer(s, t, Step(s, Run(t)))
  {
    assert ReaderMatch(s, x.ring, t);
    assert Step(s, Run(t)).q == s.q && Step(s, Run(t)).ring == B.Step(s.ring, B.Read(t));
    B.ReadHelps(s.ring, x.ring, B.Read(t), t);
  }

  lemma Consumes(s: State, x: Aux, t: ThreadId)
    requires Inv(s, x) && Enabled(s, Run(t)) && t in s.ring.readers && ListLabel(s, Me(t)) == F.Idle
    requires s.q.readers[t].at != Q.Waiting && !(s.q.readers[t].at == Q.Load && RingLabel(s, t) != B.Found)
    ensures ConsumerNearer(s, t, Step(s, Run(t)))
  {
    assert Q.ReaderOk(s.q, x.q, t);
    QueueRefined(s, x, Run(t));
    QueueCalls.Reads(s.q, t);
    QueueCalls.ReadMoves(s.q, x.q, t);
    RingKeeps(s, Run(t), t);
  }

  lemma RingKeeps(s: State, a: Action, t: ThreadId)
    requires t in s.ring.readers
    ensures t in RingStep(s, a).readers
  {
  }

  // ---------------------------------------------------------------------------------------
  // Nobody sets anybody else back
  // ---------------------------------------------------------------------------------------

  lemma QueueApart(q: Q.Queue, a: Q.Action, t: ThreadId)
    requires t in q.readers
    ensures a.Run? || a.Call? ==> Q.Step(q, a).producer == q.producer
    ensures a.Produce? || a.Enqueue? ==> Q.Step(q, a).readers == q.readers
  {
  }

  lemma RingApart(ring: B.Index, a: B.Action)
    ensures a.Read? || a.LookUp? || a.Retire? ==> B.Step(ring, a).producer == ring.producer
    ensures a.Insert? || a.Produce? ==> B.Step(ring, a).readers == ring.readers
  {
  }

  lemma ListApart(list: F.List, t: ThreadId, a: F.Action, u: ThreadId)
    requires t != u
    ensures u in list.threads <==> u in F.Step(list, t, a).threads
    ensures u in list.threads ==> F.Step(list, t, a).threads[u] == list.threads[u]
  {
  }

  /** No step of a consumer concerns the producer's part ... */
  lemma OthersLeaveProducer(s: State, a: Action, t: ThreadId)
    requires Enabled(s, a) && (a == Run(t) || (a.Call? && a.caller == t))
    ensures Step(s, a).q.producer == s.q.producer && Step(s, a).ring.producer == s.ring.producer
    ensures ListLabel(Step(s, a), PRODUCER) == ListLabel(s, PRODUCER)
  {
    if QueueAction(s, a).Some? { QueueApart(s.q, QueueAction(s, a).value, t); }
    if RingAction(s, a).Some? { RingApart(s.ring, RingAction(s, a).value); }
    if ListAction(s, a).Some? { ListApart(s.list, Me(t), ListAction(s, a).value.1, PRODUCER); }
  }

  /** ... and no step of the producer a consumer's. */
  lemma ProducerLeavesOthers(s: State, a: Action, t: ThreadId)
    requires Enabled(s, a) && (a.Produce? || a.Enqueue?) && t in s.q.readers && t in s.ring.readers
    ensures Step(s, a).q.readers == s.q.readers && Step(s, a).ring.readers == s.ring.readers
    ensures ListLabel(Step(s, a), Me(t)) == ListLabel(s, Me(t))
  {
    if QueueAction(s, a).Some? { QueueApart(s.q, QueueAction(s, a).value, t); }
    if RingAction(s, a).Some? { RingApart(s.ring, RingAction(s, a).value); }
    if ListAction(s, a).Some? { ListApart(s.list, PRODUCER, ListAction(s, a).value.1, Me(t)); }
  }
}
