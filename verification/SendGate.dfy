/**
 * The gate in front of the send thread, the tasks of a request, and the way out
 * (deflect/StreamSendWorker.cpp, run and stop; deflect/StreamPrivate.cpp, _pendingFinish).
 *
 * A finish shuts the gate, and the last of its tasks opens it again.
 */
module SendGate {
  import opened Common
  import opened Sums
  import opened W = SendWorker
  import opened SendProgress

  // ---------------------------------------------------------------------------------------
  // The gate opens again
  // ---------------------------------------------------------------------------------------

  ghost predicate AnyFinish(q: seq<Request>) {
    exists k :: 0 <= k < |q| && q[k].isFinish
  }

  /** A finish carries the task that opens the gate. */
  ghost predicate Opening(q: seq<Request>) {
    forall k :: 0 <= k < |q| && q[k].isFinish ==> OpenGate in q[k].tasks
  }

  /** The tasks of the request at hand that are still to be done. */
  function Remaining(w: Worker): seq<Task> {
    if w.pos < |w.batch| && w.task <= |w.batch[w.pos].tasks| then w.batch[w.pos].tasks[w.task..] else []
  }

  ghost predicate FinishQueued(s: Stream) {
    exists p :: 0 <= p < |s.producers| && AnyFinish(s.producers[p].queue)
  }

  /** A finish is in a queue, in the batch, postponed, or being performed. */
  ghost predicate Outstanding(s: Stream) {
    FinishQueued(s) || s.pending.Some? || FinishFetched(s.worker)
  }

  ghost predicate FinishFetched(w: Worker) {
    OpenGate in Remaining(w) || (w.pos < |w.batch| && AnyFinish(w.batch[w.pos..]))
  }

  ghost predicate GateInv(s: Stream) {
    && (forall p {:trigger s.producers[p]} :: 0 <= p < |s.producers| ==> Opening(s.producers[p].queue))
    && Opening(s.worker.batch)
    && (s.pending.Some? ==> OpenGate in s.pending.value.tasks)
    && (s.gate ==> Outstanding(s))
  }

  /** The steps this section is about: no task fails, and nothing is thrown away by stop. */
  predicate Smooth(s: Stream, a: Action) {
    !a.Drain? && (a.Work? && s.worker.at == Process ==> a.ok)
  }

  lemma InsertGate(s: Stream, p: ThreadId, call: Call)
    requires GateInv(s) && Enabled(s, Insert(p, call)) && !Refused(s, call)
    ensures GateInv(Step(s, Insert(p, call)))
  {
    var s' := Step(s, Insert(p, call));
    var q, q' := s.producers[p].queue, s'.producers[p].queue;
    assert call == FinishFrame ==> q'[|q|].isFinish && q'[|q|].tasks[1] == OpenGate;
    assert Opening(q');
    if s'.gate && call != FinishFrame && FinishQueued(s) { StillQueued(s, s'); }
    if call == FinishFrame { assert AnyFinish(s'.producers[p].queue); }
  }

  lemma StillQueued(s: Stream, s': Stream)
    requires FinishQueued(s) && |s'.producers| == |s.producers|
    requires forall p {:trigger s.producers[p]} :: 0 <= p < |s.producers| ==> s.producers[p].queue <= s'.producers[p].queue
    ensures FinishQueued(s')
  {
    var p :| 0 <= p < |s.producers| && AnyFinish(s.producers[p].queue);
    var k :| 0 <= k < |s.producers[p].queue| && s.producers[p].queue[k].isFinish;
    assert s.producers[p].queue <= s'.producers[p].queue;
    assert s'.producers[p].queue[k].isFinish;
  }

  lemma FetchGate(s: Stream, from: ThreadId)
    requires GateInv(s) && s.worker.at == Fetch && s.worker.pos == s.worker.task == 0 && QueueOf(s, from) != [] && s.worker.want > 0
    ensures GateInv(Redeem(s, from))
  {
    var s' := Redeem(s, from);
    var q, w, w' := s.producers[from].queue, s.worker, s'.worker;
    assert Opening(q[1..]);
    assert Opening(w'.batch);
    if s.gate {
      if FinishFetched(w) { StillFetched(w, w'); }
      if FinishQueued(s) { MovedOn(s, from, s'); }
    }
  }

  lemma StillFetched(w: Worker, w': Worker)
    requires FinishFetched(w) && w'.pos == w.pos == 0 && w'.task == w.task && w.batch <= w'.batch
    ensures FinishFetched(w')
  {
    if AnyFinish(w.batch[w.pos..]) {
      var k :| 0 <= k < |w.batch| && w.batch[w.pos..][k].isFinish;
      assert w'.batch[w'.pos..][k].isFinish;
    }
  }

  lemma MovedOn(s: Stream, from: ThreadId, s': Stream)
    requires FinishQueued(s) && QueueOf(s, from) != [] && s' == Redeem(s, from) && s.worker.want > 0 && s.worker.pos == 0
    ensures FinishQueued(s') || FinishFetched(s'.worker)
  {
    var p :| 0 <= p < |s.producers| && AnyFinish(s.producers[p].queue);
    var k :| 0 <= k < |s.producers[p].queue| && s.producers[p].queue[k].isFinish;
    if p != from {
      assert AnyFinish(s'.producers[p].queue);
    } else if k > 0 {
      assert s'.producers[p].queue[k - 1].isFinish;
      assert AnyFinish(s'.producers[p].queue);
    } else {
      var w, w' := s.worker, s'.worker;
      assert w'.batch[w'.pos..][|w.batch|] == s.producers[from].queue[0];
      assert AnyFinish(w'.batch[w'.pos..]);
    }
  }

  lemma TakeGate(s: Stream, count: nat)
    requires GateInv(s) && s.worker == Worker(Take, 0, [], 0, 0)
    ensures GateInv(TakeTurn(s, count))
  {
    var s' := TakeTurn(s, count);
    if s.gate && FinishQueued(s) { StillQueued(s, s'); }
    if Commits(s, count) { assert Remaining(s'.worker) == s.pending.value.tasks; }
  }

  lemma PerformGate(s: Stream)
    requires GateInv(s) && s.worker.at == Process && s.worker.pos < |s.worker.batch|
    ensures GateInv(Perform(s, true))
  {
    var s', w := Perform(s, true), s.worker;
    if s'.gate {
      if FinishQueued(s) { StillQueued(s, s'); }
      if FinishFetched(w) && s'.pending.None? { FetchedStays(w, s'.worker); }
    }
  }

  /** The request at hand goes on to its next task, or has none left, and is no finish. */
  lemma FetchedStays(w: Worker, w': Worker)
    requires w.pos < |w.batch| && FinishFetched(w) && !Current(w).isFinish
    requires if w.task >= |Current(w).tasks| then w' == Advance(w)
             else w' == w.(task := w.task + 1) && Current(w).tasks[w.task] != OpenGate
    ensures FinishFetched(w')
  {
    if w.task < |Current(w).tasks| {
      assert Remaining(w) == [Current(w).tasks[w.task]] + Remaining(w');
    } else {
      var k :| 0 <= k < |w.batch[w.pos..]| && w.batch[w.pos..][k].isFinish;
      assert k > 0 && w'.batch[w'.pos..][k - 1] == w.batch[w.pos..][k];
    }
  }

  lemma GateStep(s: Stream, x: Aux, a: Action)
    requires Inv(s, x) && GateInv(s) && Enabled(s, a) && Smooth(s, a)
    ensures GateInv(Step(s, a))
  {
    match a {
      case Insert(p, call) => if !Refused(s, call) { InsertGate(s, p, call); }
      case Signal(p) =>
        if s.gate && FinishQueued(s) { StillQueued(s, Step(s, a)); }
      case Stop => if s.gate && FinishQueued(s) { StillQueued(s, Step(s, a)); }
      case Work(count, from, ok) =>
        match s.worker.at {
          case Top => if s.gate && FinishQueued(s) { StillQueued(s, Step(s, a)); }
          case Take => TakeGate(s, count);
          case Fetch => FetchGate(s, from);
          case Process => PerformGate(s);
        }
    }
  }

  ghost predicate AllSmooth(cap: nat, threads: nat, steps: seq<Action>) {
    steps == [] ||
    (&& AllSmooth(cap, threads, steps[..|steps| - 1])
     && Smooth(Execute(cap, threads, steps[..|steps| - 1]), steps[|steps| - 1]))
  }

  /** As long as no task fails, the gate is shut only while a finish is on its way. */
  lemma {:induction false} ShutMeansOutstanding(cap: nat, threads: nat, steps: seq<Action>)
    requires Legal(cap, threads, steps) && AllSmooth(cap, threads, steps)
    ensures GateInv(Execute(cap, threads, steps))
  {
    if steps != [] {
      var before := steps[..|steps| - 1];
      ShutMeansOutstanding(cap, threads, before);
      ExecuteInv(cap, threads, before);
      GateStep(Execute(cap, threads, before), History(cap, threads, before), steps[|steps| - 1]);
    }
  }

  /**
   * Main theorem: with room in the batch and no enqueue half-done, a worker that is left to itself until it can do no
   * more leaves the gate open behind it, if no task has failed: images are accepted again.
   */
  lemma GateOpens(cap: nat, threads: nat, steps: seq<Action>, more: seq<Action>)
    requires cap > 0 && AllWork(more) && Legal(cap, threads, steps + more) && AllSmooth(cap, threads, steps + more)
    requires Execute(cap, threads, steps).running && Execute(cap, threads, steps).worker.at != Exited
    requires Quietly(Execute(cap, threads, steps)) && !CanWork(Execute(cap, threads, steps + more))
    ensures !Execute(cap, threads, steps + more).gate
  {
    EndMeansSettled(cap, threads, steps, more);
    ShutMeansOutstanding(cap, threads, steps + more);
    ExecuteInv(cap, threads, steps + more);
    StillRunning(cap, threads, steps, more);
    NothingOutstanding(Execute(cap, threads, steps + more), History(cap, threads, steps + more));
  }

  lemma NothingOutstanding(s: Stream, x: Aux)
    requires Inv(s, x) && AtRest(s) && forall i | 0 <= i < s.next :: IsSettled(x, i)
    ensures !Outstanding(s)
  {
    forall p | 0 <= p < |s.producers| ensures s.producers[p].queue == [] {
      if s.producers[p].queue != [] { NotSettled(s, x, p); }
    }
  }

  lemma NotSettled(s: Stream, x: Aux, p: ThreadId)
    requires Inv(s, x) && p < |s.producers| && s.producers[p].queue != []
    ensures s.producers[p].queue[0].id < s.next && !IsSettled(x, s.producers[p].queue[0].id)
  {
    assert ProducerOk(s, x, p);
    forall k | 0 <= k < |x.log| ensures x.log[k].id != s.producers[p].queue[0].id { assert LogOk(x, k); }
  }

  // ---------------------------------------------------------------------------------------
  // The tasks of a request
  // ---------------------------------------------------------------------------------------

  /** What the request at hand has performed so far has been sent. */
  ghost predicate SoFarSent(s: Stream) {
    s.worker.pos < |s.worker.batch| && !Current(s.worker).isFinish ==>
      forall j :: 0 <= j < s.worker.task && j < |Current(s.worker).tasks| && Current(s.worker).tasks[j].Message? ==>
        Current(s.worker).tasks[j].number in s.sent
  }

  lemma SentStep(s: Stream, x: Aux, a: Action)
    requires Inv(s, x) && Enabled(s, a) && SoFarSent(s)
    ensures SoFarSent(Step(s, a))
  {
    if a.Work? && s.worker.at == Process {
      assert Step(s, a) == Perform(s, a.ok);
    }
  }

  lemma {:induction false} AlwaysSoFarSent(cap: nat, threads: nat, steps: seq<Action>)
    requires Legal(cap, threads, steps)
    ensures SoFarSent(Execute(cap, threads, steps))
  {
    if steps != [] {
      var before := steps[..|steps| - 1];
      AlwaysSoFarSent(cap, threads, before);
      ExecuteInv(cap, threads, before);
      SentStep(Execute(cap, threads, before), History(cap, threads, before), steps[|steps| - 1]);
    }
  }

  /**
   * Main theorem: a promise is settled with success only by a step after which all messages of its request are sent,
   * and without it only by the step in which a task failed, which sends nothing.
   */
  lemma SettledHonestly(cap: nat, threads: nat, steps: seq<Action>, a: Action)
    requires Legal(cap, threads, steps + [a])
    ensures var s, x := Execute(cap, threads, steps), History(cap, threads, steps);
            var s', x' := Execute(cap, threads, steps + [a]), History(cap, threads, steps + [a]);
            |x'.log| > |x.log| && x'.log[|x.log|].fate.Ran? ==>
              && |x'.log| == |x.log| + 1 && a.Work? && s.worker.pos < |s.worker.batch|
              && x'.log[|x.log|].id == Current(s.worker).id && s'.sent == s.sent
              && (if x'.log[|x.log|].fate.success
                  then forall m :: Message(m) in Current(s.worker).tasks ==> m in s'.sent
                  else !a.ok && s.worker.task < |Current(s.worker).tasks|)
  {
    assert (steps + [a])[..|steps + [a]| - 1] == steps;
    AlwaysSoFarSent(cap, threads, steps);
    ExecuteInv(cap, threads, steps);
  }

  // ---------------------------------------------------------------------------------------
  // Stopping
  // ---------------------------------------------------------------------------------------

  /** Told to stop, the worker waits for no permit that is not there. */
  predicate Leaving(s: Stream) {
    !s.running && (s.worker.at == Take ==> s.permits > 0 || s.pending.Some?)
  }

  lemma LeavingStep(s: Stream, a: Action)
    requires Leaving(s) && a.Work? && s.cap > 0 && Enabled(s, a)
    ensures Leaving(Step(s, a))
  {
  }

  lemma {:induction false} StaysLeaving(cap: nat, threads: nat, steps: seq<Action>, more: seq<Action>)
    requires cap > 0 && AllWork(more) && Legal(cap, threads, steps + more) && Leaving(Execute(cap, threads, steps))
    ensures Leaving(Execute(cap, threads, steps + more))
  {
    if more == [] {
      assert steps + more == steps;
    } else {
      LegalPrefix(cap, threads, steps, more);
      StaysLeaving(cap, threads, steps, more[..|more| - 1]);
      assert more[|more| - 1].Work?;
      SameRoom(cap, threads, steps + more[..|more| - 1]);
      LeavingStep(Execute(cap, threads, steps + more[..|more| - 1]), more[|more| - 1]);
    }
  }

  /** stop(): the flag is cleared, and an empty request is enqueued by p. */
  function Stopping(steps: seq<Action>, p: ThreadId): seq<Action> {
    steps + [Stop] + [Insert(p, Other)] + [Signal(p)]
  }

  lemma StopWakes(cap: nat, threads: nat, steps: seq<Action>, p: ThreadId)
    requires Legal(cap, threads, Stopping(steps, p))
    ensures Leaving(Execute(cap, threads, Stopping(steps, p)))
  {
    var one, two, three := steps + [Stop], steps + [Stop] + [Insert(p, Other)], Stopping(steps, p);
    assert three[..|three| - 1] == two && two[..|two| - 1] == one && one[..|one| - 1] == steps;
    Unchanged(Execute(cap, threads, one), p);
  }

  /** What follows the clearing of the flag does not set it again. */
  lemma Unchanged(s: Stream, p: ThreadId)
    requires !s.running && Enabled(s, Insert(p, Other)) && Enabled(Step(s, Insert(p, Other)), Signal(p))
    ensures Leaving(Step(Step(s, Insert(p, Other)), Signal(p)))
  {
  }

  /**
   * Main theorem: at whatever moment stop() is called, the worker then takes finitely many steps more, and when it can
   * take none it has left its loop; it never waits for a permit that nobody will give.
   */
  lemma StopEnds(cap: nat, threads: nat, steps: seq<Action>, p: ThreadId, more: seq<Action>)
    requires cap > 0 && AllWork(more) && Legal(cap, threads, Stopping(steps, p) + more)
    ensures |more| <= Effort(Execute(cap, threads, Stopping(steps, p)))
    ensures var s' := Execute(cap, threads, Stopping(steps, p) + more);
            CanWork(s') <==> s'.worker.at != Exited
  {
    LegalUpTo(cap, threads, Stopping(steps, p), more);
    StopWakes(cap, threads, steps, p);
    WorkIsFinite(cap, threads, Stopping(steps, p), more);
    StaysLeaving(cap, threads, Stopping(steps, p), more);
    ExecuteInv(cap, threads, Stopping(steps, p) + more);
    SameRoom(cap, threads, Stopping(steps, p) + more);
    GoesOnIff(Execute(cap, threads, Stopping(steps, p) + more), History(cap, threads, Stopping(steps, p) + more));
  }

  lemma {:induction false} LegalUpTo(cap: nat, threads: nat, steps: seq<Action>, more: seq<Action>)
    requires Legal(cap, threads, steps + more)
    ensures Legal(cap, threads, steps)
  {
    if more == [] {
      assert steps + more == steps;
    } else {
      assert (steps + more)[..|steps + more| - 1] == steps + more[..|more| - 1];
      LegalUpTo(cap, threads, steps, more[..|more| - 1]);
    }
  }
}
