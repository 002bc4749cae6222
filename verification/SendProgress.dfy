/**
 * The send thread gets its work done (deflect/StreamSendWorker.cpp, run): left to itself it settles
 * everything that was signalled, in finitely many steps, if and only if its batch has any room.
 */
module SendProgress {
  import opened Common
  import opened Sums
  import opened W = SendWorker

  // ---------------------------------------------------------------------------------------
  // How much work is left
  // ---------------------------------------------------------------------------------------

  /** A request in the batch: its tasks, and going on; a finish is postponed first. */
  function BatchCost(r: Request): nat {
    |r.tasks| + if r.isFinish then 6 else 3
  }

  function QueueCost(r: Request): nat {
    BatchCost(r) + 1
  }

  function QueueEffort(p: Producer): nat {
    Total(p.queue, QueueCost)
  }

  /** The request at hand, of which some tasks are done; a finish is not run before it was postponed. */
  function Rest(r: Request, done: nat): nat {
    BatchCost(r) - if r.isFinish then 0 else Min(done, |r.tasks|)
  }

  function BatchEffort(w: Worker): nat {
    if w.pos < |w.batch| then Rest(w.batch[w.pos], w.task) + Total(w.batch[w.pos + 1..], BatchCost) else 0
  }

  function PendingEffort(pending: Option<Request>): nat {
    if pending.Some? then |pending.value.tasks| + 3 else 0
  }

  function TurnEffort(at: Label): nat {
    if at == Top then 2 else if at == Take then 1 else 0
  }

  function Effort(s: Stream): nat {
    Total(s.producers, QueueEffort) + BatchEffort(s.worker) + PendingEffort(s.pending) + TurnEffort(s.worker.at)
  }

  lemma FreshBatch(w: Worker)
    requires w.task == 0
    ensures BatchEffort(w) == if w.pos < |w.batch| then Total(w.batch[w.pos..], BatchCost) else 0
  {
    if w.pos < |w.batch| {
      TotalHead(w.batch[w.pos..], BatchCost);
      assert w.batch[w.pos..][1..] == w.batch[w.pos + 1..];
    }
  }

  /** Going on to the next request, or to the next turn. */
  lemma AdvanceEffort(w: Worker)
    requires w.at == Process && w.pos < |w.batch|
    ensures BatchEffort(Advance(w)) + TurnEffort(Advance(w).at) <= BatchEffort(w) - Rest(w.batch[w.pos], w.task) + 2
  {
    if w.pos + 1 < |w.batch| { FreshBatch(Advance(w)); }
  }

  lemma FetchEffort(s: Stream, x: Aux, a: Action)
    requires Inv(s, x) && a.Work? && s.worker.at == Fetch && QueueOf(s, a.from) != []
    ensures Effort(Step(s, a)) < Effort(s)
  {
    var p, w := s.producers[a.from], s.worker;
    var s' := Step(s, a);
    TotalUpdate(s.producers, a.from, s'.producers[a.from], QueueEffort);
    TotalHead(p.queue, QueueCost);
    FreshBatch(w);
    FreshBatch(s'.worker);
    TotalAppend(w.batch, p.queue[0], BatchCost);
    assert w.batch[0..] == w.batch && s'.worker.batch[0..] == s'.worker.batch;
  }

  /** With room in the batch, every step of the worker brings it nearer to the end of its work. */
  lemma WorkHelps(s: Stream, x: Aux, a: Action)
    requires Inv(s, x) && s.cap > 0 && a.Work? && Enabled(s, a)
    ensures Effort(Step(s, a)) < Effort(s)
  {
    match s.worker.at {
      case Top =>
      case Take => TakeEffort(s, x, a);
      case Fetch => FetchEffort(s, x, a);
      case Process => PerformEffort(s, a.ok);
    }
  }

  lemma TakeEffort(s: Stream, x: Aux, a: Action)
    requires Inv(s, x) && s.cap > 0 && a.Work? && s.worker.at == Take && Enabled(s, a)
    ensures Effort(Step(s, a)) < Effort(s)
  {
    if Commits(s, a.count) {
      FreshBatch(Step(s, a).worker);
      CommittedBatch(s.pending.value);
    }
  }

  lemma PerformEffort(s: Stream, ok: bool)
    requires s.worker.at == Process && s.worker.pos < |s.worker.batch|
    ensures Effort(Perform(s, ok)) < Effort(s)
  {
    var w := s.worker;
    if !Current(w).isFinish && w.task < |Current(w).tasks| && ok {
      var s' := Perform(s, ok);
      assert s'.worker == w.(task := w.task + 1) && s'.producers == s.producers && s'.pending == s.pending;
    } else {
      DoneEffort(s, ok);
    }
  }

  lemma DoneEffort(s: Stream, ok: bool)
    requires s.worker.at == Process && s.worker.pos < |s.worker.batch|
    requires var r := Current(s.worker); r.isFinish || s.worker.task >= |r.tasks| || !ok
    ensures Effort(Perform(s, ok)) < Effort(s)
  {
    var s' := Perform(s, ok);
    AdvanceEffort(s.worker);
    assert s'.worker == Advance(s.worker) && s'.producers == s.producers;
    assert PendingEffort(s'.pending) + 2 < PendingEffort(s.pending) + Rest(Current(s.worker), s.worker.task);
  }

  lemma CommittedBatch(r: Request)
    ensures Total([r.(isFinish := false)][0..], BatchCost) == |r.tasks| + 3
  {
    assert [r.(isFinish := false)][0..] == [] + [r.(isFinish := false)];
    TotalAppend([], r.(isFinish := false), BatchCost);
  }

  ghost predicate AllWork(steps: seq<Action>) {
    forall k {:trigger steps[k]} :: 0 <= k < |steps| ==> steps[k].Work?
  }

  lemma LegalPrefix(cap: nat, threads: nat, steps: seq<Action>, more: seq<Action>)
    requires more != [] && Legal(cap, threads, steps + more)
    ensures var before := more[..|more| - 1];
            && (steps + more)[..|steps + more| - 1] == steps + before && Legal(cap, threads, steps + before)
            && Enabled(Execute(cap, threads, steps + before), more[|more| - 1])
            && Execute(cap, threads, steps + more) == Step(Execute(cap, threads, steps + before), more[|more| - 1])
            && (AllWork(more) ==> AllWork(before))
  {
    LastApart(steps, more);
  }

  lemma LastApart(steps: seq<Action>, more: seq<Action>)
    requires more != []
    ensures (steps + more)[..|steps + more| - 1] == steps + more[..|more| - 1]
    ensures (steps + more)[|steps + more| - 1] == more[|more| - 1] && steps + more != []
    ensures AllWork(more) ==> AllWork(more[..|more| - 1])
  {
    var before := more[..|more| - 1];
    if AllWork(more) {
      forall k | 0 <= k < |before| ensures before[k].Work? { assert before[k] == more[k]; }
    }
  }

  /** So, from any state that can be reached, the worker alone takes finitely many steps, whatever it fetches. */
  lemma {:induction false} WorkIsFinite(cap: nat, threads: nat, steps: seq<Action>, more: seq<Action>)
    requires cap > 0 && AllWork(more) && Legal(cap, threads, steps + more)
    ensures |more| + Effort(Execute(cap, threads, steps + more)) <= Effort(Execute(cap, threads, steps))
  {
    if more == [] {
      assert steps + more == steps;
    } else {
      var before := more[..|more| - 1];
      LegalPrefix(cap, threads, steps, more);
      WorkIsFinite(cap, threads, steps, before);
      ExecuteInv(cap, threads, steps + before);
      SameRoom(cap, threads, steps + before);
      assert more[|more| - 1].Work?;
      WorkHelps(Execute(cap, threads, steps + before), History(cap, threads, steps + before), more[|more| - 1]);
    }
  }

  // ---------------------------------------------------------------------------------------
  // Where it ends
  // ---------------------------------------------------------------------------------------

  /** The worker waits for a permit, with nothing else to do. */
  predicate AtRest(s: Stream) {
    s.worker.at == Take && s.pending.None? && s.permits == 0
  }

  ghost predicate CanWork(s: Stream) {
    exists count, from, ok :: Enabled(s, Work(count, from, ok))
  }

  /** A permit to redeem has a request to redeem it with. */
  lemma SomeQueue(s: Stream, x: Aux) returns (p: ThreadId)
    requires Inv(s, x) && s.worker.at == Fetch
    ensures QueueOf(s, p) != []
  {
    if q: ThreadId :| QueueOf(s, q) != [] {
      p := q;
    } else {
      p := 0;
      forall q | 0 <= q < |s.producers| ensures Size(s.producers[q]) == 0 { assert QueueOf(s, q) == []; }
      TotalZero(s.producers, Size);
      assert false;
    }
  }

  /** With room in the batch, the worker goes on unless it has exited or is at rest. */
  lemma GoesOnIff(s: Stream, x: Aux)
    requires Inv(s, x) && s.cap > 0
    ensures CanWork(s) <==> s.worker.at != Exited && !AtRest(s)
  {
    match s.worker.at {
      case Top => assert Enabled(s, Work(0, 0, true));
      case Take =>
        if s.pending.Some? { assert Enabled(s, Work(Min(s.cap, s.permits), 0, true)); }
        else if s.permits > 0 { assert Enabled(s, Work(1, 0, true)); }
      case Fetch => var p := SomeQueue(s, x); assert Enabled(s, Work(0, p, true));
      case Process => assert Enabled(s, Work(0, 0, true));
      case Exited =>
    }
  }

  lemma WorkKeeps(s: Stream, a: Action)
    requires a.Work?
    ensures var s' := Step(s, a);
            && s'.running == s.running && s'.next == s.next && s'.cap == s.cap
            && (Quietly(s) ==> Quietly(s')) && (s.running && s.worker.at != Exited ==> s'.worker.at != Exited)
  {
    var s' := Step(s, a);
    if Quietly(s) {
      forall p | 0 <= p < |s'.producers| ensures !s'.producers[p].inFlight { assert !s.producers[p].inFlight; }
    }
  }

  lemma {:induction false} StillRunning(cap: nat, threads: nat, steps: seq<Action>, more: seq<Action>)
    requires AllWork(more) && Legal(cap, threads, steps + more)
    requires Execute(cap, threads, steps).running && Execute(cap, threads, steps).worker.at != Exited
    ensures var s, s' := Execute(cap, threads, steps), Execute(cap, threads, steps + more);
            s'.running && s'.worker.at != Exited && s'.next == s.next && (Quietly(s) ==> Quietly(s'))
  {
    if more == [] {
      assert steps + more == steps;
    } else {
      LegalPrefix(cap, threads, steps, more);
      StillRunning(cap, threads, steps, more[..|more| - 1]);
      assert more[|more| - 1].Work?;
      WorkKeeps(Execute(cap, threads, steps + more[..|more| - 1]), more[|more| - 1]);
    }
  }

  /**
   * With room in the batch the worker, whatever it fetches first, comes to a state of rest, and there
   * as many complete requests are left as were fetched before their own enqueue had returned; if no
   * enqueue was half-done to begin with, every request is settled.
   */
  lemma EndMeansSettled(cap: nat, threads: nat, steps: seq<Action>, more: seq<Action>)
    requires cap > 0 && AllWork(more) && Legal(cap, threads, steps + more)
    requires Execute(cap, threads, steps).running && Execute(cap, threads, steps).worker.at != Exited
    requires !CanWork(Execute(cap, threads, steps + more))
    ensures var s' := Execute(cap, threads, steps + more);
            AtRest(s') && Total(s'.producers, Complete) == Total(s'.producers, Early)
    ensures Quietly(Execute(cap, threads, steps)) ==>
              forall i | 0 <= i < Execute(cap, threads, steps).next :: IsSettled(History(cap, threads, steps + more), i)
  {
    var s', x' := Execute(cap, threads, steps + more), History(cap, threads, steps + more);
    ExecuteInv(cap, threads, steps + more);
    SameRoom(cap, threads, steps + more);
    StillRunning(cap, threads, steps, more);
    GoesOnIff(s', x');
    CompleteAndEarly(s'.producers);
    if Quietly(s') {
      forall i | 0 <= i < s'.next ensures IsSettled(x', i) { QuietRest(s', x', i); }
    }
  }

  lemma QuietRest(s: Stream, x: Aux, i: nat)
    requires Inv(s, x) && AtRest(s) && Quietly(s) && i < s.next
    ensures IsSettled(x, i)
  {
    forall p | 0 <= p < |s.producers| ensures Early(s.producers[p]) == 0 { assert !s.producers[p].inFlight; }
    TotalZero(s.producers, Early);
    BarrierState(s, x, i);
    assert !BeingEnqueued(s, i);
  }

  /** And it does come there: one step after another, at most as many as there is effort left. */
  lemma {:induction false} ComesToRest(cap: nat, threads: nat, steps: seq<Action>) returns (more: seq<Action>)
    requires cap > 0 && Legal(cap, threads, steps)
    requires Execute(cap, threads, steps).running && Execute(cap, threads, steps).worker.at != Exited
    ensures AllWork(more) && Legal(cap, threads, steps + more) && AtRest(Execute(cap, threads, steps + more))
    decreases Effort(Execute(cap, threads, steps))
  {
    if AtRest(Execute(cap, threads, steps)) {
      more := [];
      assert steps + more == steps;
    } else {
      var a := OneStep(cap, threads, steps);
      more := ComesToRest(cap, threads, steps + [a]);
      WorkFirst(steps, a, more);
      more := [a] + more;
    }
  }

  lemma WorkFirst(steps: seq<Action>, a: Action, more: seq<Action>)
    requires a.Work? && AllWork(more)
    ensures steps + [a] + more == steps + ([a] + more) && AllWork([a] + more)
  {
    forall k | 0 <= k < |[a] + more| ensures ([a] + more)[k].Work? {
      if k > 0 { assert ([a] + more)[k] == more[k - 1]; }
    }
  }

  lemma OneStep(cap: nat, threads: nat, steps: seq<Action>) returns (a: Action)
    requires cap > 0 && Legal(cap, threads, steps) && !AtRest(Execute(cap, threads, steps))
    requires Execute(cap, threads, steps).running && Execute(cap, threads, steps).worker.at != Exited
    ensures a.Work? && Legal(cap, threads, steps + [a])
    ensures var s, s' := Execute(cap, threads, steps), Execute(cap, threads, steps + [a]);
            Effort(s') < Effort(s) && s'.running && s'.worker.at != Exited
  {
    var s, x := Execute(cap, threads, steps), History(cap, threads, steps);
    ExecuteInv(cap, threads, steps);
    SameRoom(cap, threads, steps);
    GoesOnIff(s, x);
    var count, from, ok :| Enabled(s, Work(count, from, ok));
    a := Work(count, from, ok);
    assert (steps + [a])[..|steps|] == steps;
    WorkHelps(s, x, a);
    WorkKeeps(s, a);
  }

  // ---------------------------------------------------------------------------------------
  // When anything is sent at all
  // ---------------------------------------------------------------------------------------

  ghost predicate Sends(cap: nat, threads: nat) {
    exists steps :: Legal(cap, threads, steps) && Execute(cap, threads, steps).sent != []
  }

  /** A stream with clients ever sends anything if and only if the batch has room: two hardware threads at least. */
  lemma SendsIff(cap: nat, threads: nat)
    requires threads > 0
    ensures Sends(cap, threads) <==> cap > 0
  {
    if cap > 0 {
      OneImage(cap, threads);
      var s :| Reachable(cap, threads, s) && s.sent != [];
      var steps :| Legal(cap, threads, steps) && Execute(cap, threads, steps) == s;
    } else if Sends(cap, threads) {
      var steps :| Legal(cap, threads, steps) && Execute(cap, threads, steps).sent != [];
      NoRoomNoProgress(threads, steps);
    }
  }

  lemma OneImage(cap: nat, threads: nat)
    requires cap > 0 && threads > 0
    ensures exists s :: Reachable(cap, threads, s) && s.sent != []
  {
    var s0 := Init(cap, threads);
    assert Legal(cap, threads, []) && Execute(cap, threads, []) == s0;
    var s1 := Step(s0, Insert(0, SendImage));
    Go(cap, threads, Insert(0, SendImage), s0, s1);
    var s2 := Step(s1, Signal(0));
    Go(cap, threads, Signal(0), s1, s2);
    var s3 := Step(s2, Work(0, 0, true));
    Go(cap, threads, Work(0, 0, true), s2, s3);
    var s4 := Step(s3, Work(1, 0, true));
    Go(cap, threads, Work(1, 0, true), s3, s4);
    var s5 := Step(s4, Work(0, 0, true));
    Go(cap, threads, Work(0, 0, true), s4, s5);
    assert s5.worker.batch[0].tasks == [Message(0)];
    var s6 := Step(s5, Work(0, 0, true));
    Go(cap, threads, Work(0, 0, true), s5, s6);
    assert s6.sent == [0];
  }
}
