/**
 * The bounded blocking queue (deflect/MTQueue.h): a mutex and two condition variables.
 *
 * A step is what one thread does while it holds the mutex: from locking it to unlocking it or to
 * falling asleep on a condition variable. Sleepers wake when they are notified or spuriously, and
 * then try again. Any number of threads call any of the operations.
 */
module MTQueue {
  import opened Common
  import opened Sums

  type Item = int

  datatype Label =
    | Idle
    | Enqueue      // about to lock in enqueue, for the first time or after waking
    | Dequeue      // the same in dequeue
    | FullSleep    // waiting on _full, not notified
    | EmptySleep   // waiting on _empty, not notified

  /** woken: it has been asleep in this call, and was notified or woke by itself. */
  datatype Thread = Thread(at: Label, woken: bool, item: Item)

  /** got: what dequeue has returned; put: what enqueue has stored and clear has not thrown away. */
  datatype Queue = Queue(maxSize: nat, items: seq<Item>, threads: seq<Thread>, got: seq<Item>, put: seq<Item>)

  /** choice: the sleeper notify_one picks. */
  datatype Action =
    | CallEnqueue(caller: ThreadId, item: Item)
    | CallDequeue(caller: ThreadId)
    | Run(runner: ThreadId, choice: ThreadId)
    | WakeUp(sleeper: ThreadId)
    | Clear(choice: ThreadId)

  predicate IsAt(s: Queue, t: ThreadId, at: Label) {
    t < |s.threads| && s.threads[t].at == at
  }

  ghost predicate Sleeps(s: Queue, at: Label) {
    exists t {:trigger s.threads[t]} :: 0 <= t < |s.threads| && s.threads[t].at == at
  }

  /** notify_one wakes somebody if anybody sleeps. */
  ghost predicate Chosen(s: Queue, choice: ThreadId, at: Label) {
    Sleeps(s, at) ==> IsAt(s, choice, at)
  }

  ghost predicate Enabled(s: Queue, a: Action) {
    match a
    case CallEnqueue(t, _) => IsAt(s, t, Idle)
    case CallDequeue(t) => IsAt(s, t, Idle)
    case Run(t, choice) =>
      || (IsAt(s, t, Enqueue) && Chosen(s, choice, EmptySleep))
      || (IsAt(s, t, Dequeue) && Chosen(s, choice, FullSleep))
    case WakeUp(t) => IsAt(s, t, FullSleep) || IsAt(s, t, EmptySleep)
    case Clear(choice) => Chosen(s, choice, FullSleep)
  }

  function Put(s: Queue, t: ThreadId, th: Thread): Queue {
    if t < |s.threads| then s.(threads := s.threads[t := th]) else s
  }

  /** A sleeper is made to try again. */
  function Wake(s: Queue, t: ThreadId): Queue {
    if IsAt(s, t, FullSleep) then Put(s, t, s.threads[t].(at := Enqueue, woken := true))
    else if IsAt(s, t, EmptySleep) then Put(s, t, s.threads[t].(at := Dequeue, woken := true))
    else s
  }

  function NotifyOne(s: Queue, choice: ThreadId, at: Label): Queue {
    if IsAt(s, choice, at) then Wake(s, choice) else s
  }

  const IDLE: Thread := Thread(Idle, false, 0)

  function Step(s: Queue, a: Action): Queue {
    match a
    case CallEnqueue(t, item) => Put(s, t, Thread(Enqueue, false, item))
    case CallDequeue(t) => Put(s, t, Thread(Dequeue, false, 0))
    case WakeUp(t) => Wake(s, t)
    case Clear(choice) => NotifyOne(s.(items := [], put := s.got), choice, FullSleep)
    case Run(t, choice) =>
      if IsAt(s, t, Enqueue) then
        var th := s.threads[t];
        if |s.items| >= s.maxSize then Put(s, t, th.(at := FullSleep, woken := false))
        else NotifyOne(Put(s.(items := s.items + [th.item], put := s.put + [th.item]), t, IDLE), choice, EmptySleep)
      else if IsAt(s, t, Dequeue) then
        if s.items == [] then Put(s, t, s.threads[t].(at := EmptySleep, woken := false))
        else NotifyOne(Put(s.(items := s.items[1..], got := s.got + [s.items[0]]), t, IDLE), choice, FullSleep)
      else s
  }

  // ---------------------------------------------------------------------------------------
  // No lost wake-up
  // ---------------------------------------------------------------------------------------

  function WokenConsumer(th: Thread): nat {
    if th.at == Dequeue && th.woken then 1 else 0
  }

  function WokenProducer(th: Thread): nat {
    if th.at == Enqueue && th.woken then 1 else 0
  }

  function WokenConsumers(s: Queue): nat {
    Total(s.threads, WokenConsumer)
  }

  function WokenProducers(s: Queue): nat {
    Total(s.threads, WokenProducer)
  }

  /** If a consumer sleeps on, every item has a consumer on its way to it; and so for producers and free places. */
  ghost predicate Covered(s: Queue) {
    && (Sleeps(s, EmptySleep) ==> |s.items| <= WokenConsumers(s))
    && (Sleeps(s, FullSleep) ==> s.maxSize - |s.items| <= WokenProducers(s))
  }

  ghost predicate Inv(s: Queue) {
    |s.items| <= s.maxSize && s.put == s.got + s.items && Covered(s)
  }

  /** clear may be called: enough producers are awake, or nobody is left asleep after the one it wakes. */
  ghost predicate ClearIsSafe(s: Queue, choice: ThreadId) {
    s.maxSize <= WokenProducers(s) + 1 || forall t: ThreadId :: IsAt(s, t, FullSleep) ==> t == choice
  }

  lemma PutCounts(s: Queue, t: ThreadId, th: Thread)
    requires t < |s.threads|
    ensures WokenConsumers(Put(s, t, th)) == WokenConsumers(s) - WokenConsumer(s.threads[t]) + WokenConsumer(th)
    ensures WokenProducers(Put(s, t, th)) == WokenProducers(s) - WokenProducer(s.threads[t]) + WokenProducer(th)
  {
    TotalUpdate(s.threads, t, th, WokenConsumer);
    TotalUpdate(s.threads, t, th, WokenProducer);
  }

  /** No new sleeper appears unless thread t is one now. */
  lemma PutSleeps(s: Queue, t: ThreadId, th: Thread, at: Label)
    requires t < |s.threads| && Sleeps(Put(s, t, th), at)
    ensures Sleeps(s, at) || th.at == at
  {
    var u :| 0 <= u < |s.threads| && Put(s, t, th).threads[u].at == at;
    if u != t { assert s.threads[u].at == at; }
  }

  /** Notifying adds one woken thread, or nobody slept. */
  lemma NotifyCounts(s: Queue, choice: ThreadId, at: Label)
    requires Chosen(s, choice, at) && at in {FullSleep, EmptySleep}
    ensures var s' := NotifyOne(s, choice, at);
            && s'.items == s.items && s'.maxSize == s.maxSize && s'.got == s.got && s'.put == s.put
            && WokenConsumers(s') == WokenConsumers(s) + (if at == EmptySleep && Sleeps(s, at) then 1 else 0)
            && WokenProducers(s') == WokenProducers(s) + (if at == FullSleep && Sleeps(s, at) then 1 else 0)
            && (Sleeps(s', EmptySleep) ==> Sleeps(s, EmptySleep)) && (Sleeps(s', FullSleep) ==> Sleeps(s, FullSleep))
  {
    if IsAt(s, choice, at) {
      var th := s.threads[choice].(at := if at == FullSleep then Enqueue else Dequeue, woken := true);
      PutCounts(s, choice, th);
      if Sleeps(Put(s, choice, th), EmptySleep) { PutSleeps(s, choice, th, EmptySleep); }
      if Sleeps(Put(s, choice, th), FullSleep) { PutSleeps(s, choice, th, FullSleep); }
      assert Sleeps(s, at);
    }
  }

  /** The choice of a sleeper is not disturbed by the thread that is running. */
  lemma StillChosen(s: Queue, s': Queue, t: ThreadId, choice: ThreadId, at: Label)
    requires t < |s.threads| && s'.threads == s.threads[t := IDLE] && at in {FullSleep, EmptySleep}
    requires s.threads[t].at !in {FullSleep, EmptySleep} && Chosen(s, choice, at)
    ensures Chosen(s', choice, at) && (Sleeps(s', at) <==> Sleeps(s, at))
  {
    if Sleeps(s', at) {
      var u :| 0 <= u < |s'.threads| && s'.threads[u].at == at;
      assert s.threads[u].at == at;
    }
    if Sleeps(s, at) {
      var u :| 0 <= u < |s.threads| && s.threads[u].at == at;
      assert s'.threads[u].at == at;
    }
  }

  lemma EnqueueInv(s: Queue, t: ThreadId, choice: ThreadId)
    requires Inv(s) && IsAt(s, t, Enqueue) && Chosen(s, choice, EmptySleep)
    ensures Inv(Step(s, Run(t, choice)))
  {
    var th := s.threads[t];
    if |s.items| >= s.maxSize {
      var asleep := th.(at := FullSleep, woken := false);
      PutCounts(s, t, asleep);
      if Sleeps(Put(s, t, asleep), EmptySleep) { PutSleeps(s, t, asleep, EmptySleep); }
    } else {
      var pushed := s.(items := s.items + [th.item], put := s.put + [th.item]);
      var s1 := Put(pushed, t, IDLE);
      PutCounts(pushed, t, IDLE);
      StillChosen(s, s1, t, choice, EmptySleep);
      NotifyCounts(s1, choice, EmptySleep);
      if Sleeps(s1, FullSleep) { PutSleeps(pushed, t, IDLE, FullSleep); SameSleepers(s, pushed); }
      assert s.got + (s.items + [th.item]) == (s.got + s.items) + [th.item];
    }
  }

  lemma SameSleepers(s: Queue, s': Queue)
    requires s'.threads == s.threads
    ensures forall at :: Sleeps(s', at) == Sleeps(s, at)
  {
  }

  lemma DequeueInv(s: Queue, t: ThreadId, choice: ThreadId)
    requires Inv(s) && IsAt(s, t, Dequeue) && Chosen(s, choice, FullSleep)
    ensures Inv(Step(s, Run(t, choice)))
  {
    var th := s.threads[t];
    if s.items == [] {
      var asleep := th.(at := EmptySleep, woken := false);
      PutCounts(s, t, asleep);
      if Sleeps(Put(s, t, asleep), FullSleep) { PutSleeps(s, t, asleep, FullSleep); }
    } else {
      var popped := s.(items := s.items[1..], got := s.got + [s.items[0]]);
      var s1 := Put(popped, t, IDLE);
      PutCounts(popped, t, IDLE);
      StillChosen(s, s1, t, choice, FullSleep);
      NotifyCounts(s1, choice, FullSleep);
      if Sleeps(s1, EmptySleep) { PutSleeps(popped, t, IDLE, EmptySleep); SameSleepers(s, popped); }
    }
  }

  lemma CallInv(s: Queue, t: ThreadId, th: Thread)
    requires Inv(s) && IsAt(s, t, Idle) && (th.at == Enqueue || th.at == Dequeue) && !th.woken
    ensures Inv(Put(s, t, th))
  {
    PutCounts(s, t, th);
    if Sleeps(Put(s, t, th), EmptySleep) { PutSleeps(s, t, th, EmptySleep); }
    if Sleeps(Put(s, t, th), FullSleep) { PutSleeps(s, t, th, FullSleep); }
  }

  lemma WakeInv(s: Queue, t: ThreadId)
    requires Inv(s) && (IsAt(s, t, FullSleep) || IsAt(s, t, EmptySleep))
    ensures Inv(Wake(s, t))
  {
    var th := s.threads[t].(at := if IsAt(s, t, FullSleep) then Enqueue else Dequeue, woken := true);
    PutCounts(s, t, th);
    if Sleeps(Put(s, t, th), EmptySleep) { PutSleeps(s, t, th, EmptySleep); }
    if Sleeps(Put(s, t, th), FullSleep) { PutSleeps(s, t, th, FullSleep); }
  }

  /** clear covers the producers it leaves asleep if and only if it may be called. */
  lemma ClearInvIff(s: Queue, choice: ThreadId)
    requires Inv(s) && Enabled(s, Clear(choice))
    ensures Inv(Step(s, Clear(choice))) <==> ClearIsSafe(s, choice)
    ensures Inv(Step(s, Clear(choice))) <==> Covered(Step(s, Clear(choice)))
  {
    var emptied, s' := s.(items := [], put := s.got), Step(s, Clear(choice));
    SameSleepers(s, emptied);
    NotifyCounts(emptied, choice, FullSleep);
    assert Sleeps(s', FullSleep) <==> exists t: ThreadId :: IsAt(s, t, FullSleep) && t != choice by {
      if t: ThreadId :| IsAt(s, t, FullSleep) && t != choice { assert s'.threads[t].at == FullSleep; }
      if Sleeps(s', FullSleep) {
        var t :| 0 <= t < |s'.threads| && s'.threads[t].at == FullSleep;
        assert IsAt(s, t, FullSleep) && t != choice;
      }
    }
  }

  lemma StepInv(s: Queue, a: Action)
    requires Inv(s) && Enabled(s, a)
    ensures Inv(Step(s, a)) <==> (a.Clear? ==> ClearIsSafe(s, a.choice))
    ensures Inv(Step(s, a)) <==> Covered(Step(s, a))
  {
    match a {
      case CallEnqueue(t, item) => CallInv(s, t, Thread(Enqueue, false, item));
      case CallDequeue(t) => CallInv(s, t, Thread(Dequeue, false, 0));
      case WakeUp(t) => WakeInv(s, t);
      case Run(t, choice) => if IsAt(s, t, Enqueue) { EnqueueInv(s, t, choice); } else { DequeueInv(s, t, choice); }
      case Clear(choice) => ClearInvIff(s, choice);
    }
  }

  function Init(maxSize: nat, threads: nat): Queue {
    Queue(maxSize, [], seq(threads, _ => IDLE), [], [])
  }

  function Execute(maxSize: nat, threads: nat, steps: seq<Action>): Queue {
    if steps == [] then Init(maxSize, threads)
    else Step(Execute(maxSize, threads, steps[..|steps| - 1]), steps[|steps| - 1])
  }

  ghost predicate Legal(maxSize: nat, threads: nat, steps: seq<Action>) {
    steps == [] ||
    (&& Legal(maxSize, threads, steps[..|steps| - 1])
     && Enabled(Execute(maxSize, threads, steps[..|steps| - 1]), steps[|steps| - 1]))
  }

  /** Every clear of the run comes at a moment when it may be called. */
  ghost predicate ClearsSafely(maxSize: nat, threads: nat, steps: seq<Action>) {
    steps == [] ||
    (&& ClearsSafely(maxSize, threads, steps[..|steps| - 1])
     && (steps[|steps| - 1].Clear? ==>
           ClearIsSafe(Execute(maxSize, threads, steps[..|steps| - 1]), steps[|steps| - 1].choice)))
  }

  lemma {:induction false} ExecuteInv(maxSize: nat, threads: nat, steps: seq<Action>)
    requires Legal(maxSize, threads, steps) && ClearsSafely(maxSize, threads, steps)
    ensures Inv(Execute(maxSize, threads, steps))
  {
    if steps != [] {
      ExecuteInv(maxSize, threads, steps[..|steps| - 1]);
      StepInv(Execute(maxSize, threads, steps[..|steps| - 1]), steps[|steps| - 1]);
    }
  }

  /** First in, first out, nothing lost or doubled but by clear, never more than maxSize inside: in every run. */
  lemma {:induction false} FirstInFirstOut(maxSize: nat, threads: nat, steps: seq<Action>)
    requires Legal(maxSize, threads, steps)
    ensures var s := Execute(maxSize, threads, steps); s.put == s.got + s.items && |s.items| <= s.maxSize
  {
    if steps != [] {
      FirstInFirstOut(maxSize, threads, steps[..|steps| - 1]);
      KeepsOrder(Execute(maxSize, threads, steps[..|steps| - 1]), steps[|steps| - 1]);
    }
  }

  lemma KeepsOrder(s: Queue, a: Action)
    requires s.put == s.got + s.items && |s.items| <= s.maxSize && Enabled(s, a)
    ensures var s' := Step(s, a); s'.put == s'.got + s'.items && |s'.items| <= s'.maxSize
  {
    if a.Run? && IsAt(s, a.runner, Enqueue) {
      var item := s.threads[a.runner].item;
      assert s.got + (s.items + [item]) == (s.got + s.items) + [item];
    }
  }

  /** What t has passed to its latest enqueue. */
  function Offered(steps: seq<Action>, t: ThreadId): Item {
    if steps == [] then 0 else
    match steps[|steps| - 1]
    case CallEnqueue(u, item) => if u == t then item else Offered(steps[..|steps| - 1], t)
    case CallDequeue(u) => if u == t then 0 else Offered(steps[..|steps| - 1], t)
    case _ => Offered(steps[..|steps| - 1], t)
  }

  /** The items of the enqueue calls that have returned, in that order; after clear, of those that were out by then. */
  function Entered(maxSize: nat, threads: nat, steps: seq<Action>): seq<Item> {
    if steps == [] then [] else
    var before, a := steps[..|steps| - 1], steps[|steps| - 1];
    var s, s' := Execute(maxSize, threads, before), Execute(maxSize, threads, steps);
    if a.Clear? then s.got
    else if a.Run? && IsAt(s, a.runner, Enqueue) && IsAt(s', a.runner, Idle)
    then Entered(maxSize, threads, before) + [Offered(before, a.runner)]
    else Entered(maxSize, threads, before)
  }

  ghost predicate Keeping(s: Queue, steps: seq<Action>) {
    forall t {:trigger s.threads[t]} :: 0 <= t < |s.threads| && s.threads[t].at in {Enqueue, FullSleep} ==>
      s.threads[t].item == Offered(steps, t)
  }

  /** A call returns only with its work done: its item is inside, or the first item is out; and it does if that can be done. */
  lemma ReturnsIff(s: Queue, t: ThreadId, choice: ThreadId)
    requires Enabled(s, Run(t, choice))
    ensures var s' := Step(s, Run(t, choice));
            if IsAt(s, t, Enqueue) then
              (if |s.items| < s.maxSize then IsAt(s', t, Idle) && s'.items == s.items + [s.threads[t].item] && s'.got == s.got
               else IsAt(s', t, FullSleep) && s'.items == s.items && s'.got == s.got)
            else
              (if s.items != [] then IsAt(s', t, Idle) && [s.items[0]] + s'.items == s.items && s'.got == s.got + [s.items[0]]
               else IsAt(s', t, EmptySleep) && s'.items == s.items && s'.got == s.got)
  {
  }

  lemma KeepingStep(s: Queue, steps: seq<Action>, a: Action)
    requires Keeping(s, steps) && Enabled(s, a)
    ensures Keeping(Step(s, a), steps + [a])
  {
    var s' := Step(s, a);
    assert (steps + [a])[..|steps|] == steps;
    forall t | 0 <= t < |s'.threads| && s'.threads[t].at in {Enqueue, FullSleep}
      ensures s'.threads[t].item == Offered(steps + [a], t)
    {
    }
  }

  /**
   * Main theorem: nothing that an enqueue call has put in is lost, doubled, changed or overtaken: in every run,
   * what the calls that have returned were given is what has come out, and then what is inside.
   */
  lemma {:induction false} CallsAccounted(maxSize: nat, threads: nat, steps: seq<Action>)
    requires Legal(maxSize, threads, steps)
    ensures var s := Execute(maxSize, threads, steps);
            Keeping(s, steps) && Entered(maxSize, threads, steps) == s.got + s.items
  {
    if steps != [] {
      var before, a := steps[..|steps| - 1], steps[|steps| - 1];
      CallsAccounted(maxSize, threads, before);
      var s := Execute(maxSize, threads, before);
      assert before + [a] == steps;
      KeepingStep(s, before, a);
      if a.Run? {
        ReturnsIff(s, a.runner, a.choice);
        assert s.got + (s.items + [s.threads[a.runner].item]) == (s.got + s.items) + [s.threads[a.runner].item];
      }
    }
  }

  /** All along the run, sleepers are covered. */
  ghost predicate AlwaysCovered(maxSize: nat, threads: nat, steps: seq<Action>) {
    Covered(Execute(maxSize, threads, steps)) && (steps == [] || AlwaysCovered(maxSize, threads, steps[..|steps| - 1]))
  }

  /**
   * No lost wake-up, although each operation notifies one thread only: all along a run, a consumer
   * sleeps on only if there are no more items than consumers that have been woken and not come to them
   * yet, and a producer only if there are no more free places than producers woken; if and only if
   * clear is called at safe moments only.
   */
  lemma {:induction false} NoLostWakeUp(maxSize: nat, threads: nat, steps: seq<Action>)
    requires Legal(maxSize, threads, steps)
    ensures AlwaysCovered(maxSize, threads, steps) <==> ClearsSafely(maxSize, threads, steps)
  {
    if steps != [] {
      var before := steps[..|steps| - 1];
      NoLostWakeUp(maxSize, threads, before);
      if ClearsSafely(maxSize, threads, before) {
        ExecuteInv(maxSize, threads, before);
        StepInv(Execute(maxSize, threads, before), steps[|steps| - 1]);
      }
    }
  }

  /** Nobody is about to run. */
  ghost predicate Quiet(s: Queue) {
    forall t {:trigger s.threads[t]} :: 0 <= t < |s.threads| ==> s.threads[t].at in {Idle, FullSleep, EmptySleep}
  }

  /** So when all is quiet, consumers sleep for lack of items and producers for lack of room, never both. */
  lemma QuietMeansBlocked(maxSize: nat, threads: nat, steps: seq<Action>)
    requires Legal(maxSize, threads, steps) && ClearsSafely(maxSize, threads, steps) && Quiet(Execute(maxSize, threads, steps))
    ensures var s := Execute(maxSize, threads, steps);
            && (Sleeps(s, EmptySleep) ==> s.items == [])
            && (Sleeps(s, FullSleep) ==> |s.items| == s.maxSize)
            && (s.maxSize > 0 ==> !(Sleeps(s, EmptySleep) && Sleeps(s, FullSleep)))
  {
    ExecuteInv(maxSize, threads, steps);
    NobodyWoken(Execute(maxSize, threads, steps));
  }

  lemma NobodyWoken(s: Queue)
    requires Quiet(s)
    ensures WokenConsumers(s) == WokenProducers(s) == 0
  {
    forall i | 0 <= i < |s.threads| ensures WokenConsumer(s.threads[i]) == WokenProducer(s.threads[i]) == 0 {
      assert s.threads[i].at in {Idle, FullSleep, EmptySleep};
    }
    TotalZero(s.threads, WokenConsumer);
    TotalZero(s.threads, WokenProducer);
  }

  ghost predicate Reachable(maxSize: nat, threads: nat, s: Queue) {
    exists steps :: Legal(maxSize, threads, steps) && Execute(maxSize, threads, steps) == s
  }

  lemma Go(maxSize: nat, threads: nat, s: Queue, a: Action, s': Queue)
    requires Reachable(maxSize, threads, s) && Enabled(s, a) && Step(s, a) == s'
    ensures Reachable(maxSize, threads, s')
  {
    var steps :| Legal(maxSize, threads, steps) && Execute(maxSize, threads, steps) == s;
    assert (steps + [a])[..|steps|] == steps;
    assert Legal(maxSize, threads, steps + [a]);
  }

  /** A producer stores an item and is done, or goes to sleep beside a full queue. */
  lemma Produces(maxSize: nat, threads: nat, s: Queue, t: ThreadId, x: Item)
    requires Reachable(maxSize, threads, s) && IsAt(s, t, Idle) && !Sleeps(s, EmptySleep)
    ensures |s.items| < s.maxSize ==>
              Reachable(maxSize, threads, s.(items := s.items + [x], put := s.put + [x], threads := s.threads[t := IDLE]))
    ensures |s.items| >= s.maxSize ==>
              Reachable(maxSize, threads, s.(threads := s.threads[t := Thread(FullSleep, false, x)]))
  {
    var s1 := Put(s, t, Thread(Enqueue, false, x));
    Go(maxSize, threads, s, CallEnqueue(t, x), s1);
    if Sleeps(s1, EmptySleep) { PutSleeps(s, t, Thread(Enqueue, false, x), EmptySleep); }
    var s2 := Step(s1, Run(t, 0));
    assert !IsAt(s1, 0, EmptySleep);
    assert s1.threads[t := IDLE] == s.threads[t := IDLE];
    assert s1.threads[t := Thread(FullSleep, false, x)] == s.threads[t := Thread(FullSleep, false, x)];
    if |s.items| < s.maxSize { assert !IsAt(Put(s1, t, IDLE), 0, EmptySleep); }
    Go(maxSize, threads, s1, Run(t, 0), s2);
  }

  function Stocked(items: seq<Item>): Queue {
    Queue(2, items, [IDLE, IDLE], [], items)
  }

  /** Two producers wait beside a full queue of two. */
  function BothWait(x: Item, y: Item): Queue {
    Stocked([x, y]).(threads := [Thread(FullSleep, false, x), Thread(FullSleep, false, y)])
  }

  lemma BothWaiting(x: Item, y: Item)
    ensures Reachable(2, 2, BothWait(x, y))
  {
    assert Legal(2, 2, []) && Execute(2, 2, []) == Stocked([]) by { assert seq(2, _ => IDLE) == [IDLE, IDLE]; }
    assert [IDLE, IDLE][0 := IDLE] == [IDLE, IDLE];
    Produces(2, 2, Stocked([]), 0, x);
    assert [] + [x] == [x] && [x] + [y] == [x, y];
    Produces(2, 2, Stocked([x]), 0, y);
    Produces(2, 2, Stocked([x, y]), 0, x);
    var one := Stocked([x, y]).(threads := [Thread(FullSleep, false, x), IDLE]);
    assert [IDLE, IDLE][0 := Thread(FullSleep, false, x)] == one.threads;
    Produces(2, 2, one, 1, y);
    assert one.threads[1 := Thread(FullSleep, false, y)] == BothWait(x, y).threads;
  }

  /** There clear frees both places, and one of them sleeps on beside a free place. */
  lemma ClearLosesWakeUp(x: Item, y: Item)
    ensures Reachable(2, 2, BothWait(x, y)) && Enabled(BothWait(x, y), Clear(0))
    ensures var s' := Step(BothWait(x, y), Clear(0)); Sleeps(s', FullSleep) && s'.maxSize - |s'.items| > WokenProducers(s')
  {
    BothWaiting(x, y);
    var s := BothWait(x, y);
    assert s.threads[0].at == FullSleep;
    NotifyCounts(s.(items := [], put := s.got), 0, FullSleep);
    NobodyWoken(s.(items := [], put := s.got));
    assert Step(s, Clear(0)).threads[1].at == FullSleep;
  }
}
