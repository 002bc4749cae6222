/**
 * Segments compressed in parallel (deflect/ImageSegmenter.cpp, generateJpeg and computeJpeg): every
 * task puts its segment into the queue, with an exception inside if its compression failed; the
 * calling thread takes them out and gives them to the handler. The queue is module MTQueue's, without
 * a limit, so that putting never blocks.
 */
module JpegHandOff {
  /** Handling until something throws; then the rest is taken out without being handled. */
  datatype Mode = Handling | Draining | Returned(result: bool) | Rethrown

  datatype State = State(
    total: nat,                // the number of segments
    working: set<nat>,         // tasks that have not delivered yet
    queue: seq<nat>,
    failed: set<nat>,          // tasks whose compression threw
    mode: Mode,
    i: nat,                    // the consumer's loop variable
    result: bool,
    taken: seq<nat>,           // everything dequeued, in order
    handled: seq<nat>)         // what the handler was given

  /** What the handler does with a segment. */
  datatype Answer = Good | Bad | Throws

  datatype Action =
    | Deliver(task: nat, ok: bool)      // a worker finishes a task
    | Take(answer: Answer)              // the consumer dequeues a segment and deals with it
    | Finish                            // the consumer's loop ends

  predicate Enabled(s: State, a: Action) {
    match a
    case Deliver(t, _) => t in s.working
    case Take(_) => s.mode in {Handling, Draining} && s.i < s.total && s.queue != []
    case Finish => s.mode in {Handling, Draining} && s.i >= s.total
  }

  function Step(s: State, a: Action): State {
    match a
    case Deliver(t, ok) =>
      s.(working := s.working - {t}, queue := s.queue + [t], failed := if ok then s.failed else s.failed + {t})
    case Take(answer) =>
      if s.queue == [] then s else
      var t := s.queue[0];
      var s' := s.(queue := s.queue[1..], taken := s.taken + [t], i := s.i + 1);
      if s.mode != Handling then s'
      else if t in s.failed then s'.(mode := Draining)
      else if answer == Throws then s'.(mode := Draining, handled := s.handled + [t])
      else s'.(handled := s.handled + [t], result := s.result && answer == Good)
    case Finish => s.(mode := if s.mode == Handling then Returned(s.result) else Rethrown)
  }

  function Tasks(n: nat): set<nat> {
    if n == 0 then {} else Tasks(n - 1) + {n - 1}
  }

  lemma {:induction false} TasksAre(n: nat)
    ensures |Tasks(n)| == n && forall t: nat :: t in Tasks(n) <==> t < n
  {
    if n > 0 { TasksAre(n - 1); }
  }

  function Init(total: nat): State {
    State(total, Tasks(total), [], {}, Handling, 0, true, [], [])
  }

  function Execute(total: nat, steps: seq<Action>): State {
    if steps == [] then Init(total) else Step(Execute(total, steps[..|steps| - 1]), steps[|steps| - 1])
  }

  ghost predicate Legal(total: nat, steps: seq<Action>) {
    steps == [] || (Legal(total, steps[..|steps| - 1]) && Enabled(Execute(total, steps[..|steps| - 1]), steps[|steps| - 1]))
  }

  /** The tasks that are not with the workers any more. */
  function Out(s: State): seq<nat> {
    s.taken + s.queue
  }

  ghost predicate Distinct(q: seq<nat>) {
    forall j, k :: 0 <= j < k < |q| ==> q[j] != q[k]
  }

  ghost predicate Inv(s: State) {
    && (forall t: nat :: t < s.total <==> t in s.working || t in Out(s))
    && (forall t: nat :: !(t in s.working && t in Out(s)))
    && Distinct(Out(s)) && |s.working| + |Out(s)| == s.total
    && s.i == |s.taken| <= s.total
    && (s.mode in {Returned(true), Returned(false), Rethrown} ==> s.i == s.total)
    && (s.mode.Handling? || s.mode.Returned? ==> s.handled == s.taken && forall t :: t in s.taken ==> t !in s.failed)
    && (s.mode.Returned? ==> s.mode.result == s.result)
    && s.failed !! s.working
  }

  lemma DeliverInv(s: State, t: nat, ok: bool)
    requires Inv(s) && t in s.working
    ensures Inv(Step(s, Deliver(t, ok)))
  {
    var s' := Step(s, Deliver(t, ok));
    assert Out(s') == Out(s) + [t];
    assert t !in Out(s);
    assert forall u :: u in s'.taken ==> u in Out(s);
  }

  lemma TakeInv(s: State, answer: Answer)
    requires Inv(s) && Enabled(s, Take(answer))
    ensures Inv(Step(s, Take(answer)))
  {
    var s' := Step(s, Take(answer));
    assert Out(s') == Out(s);
    assert |s'.taken| + |s'.queue| == |Out(s)|;
  }

  lemma StepInv(s: State, a: Action)
    requires Inv(s) && Enabled(s, a)
    ensures Inv(Step(s, a)) && Step(s, a).total == s.total
  {
    match a {
      case Deliver(t, ok) => DeliverInv(s, t, ok);
      case Take(answer) => TakeInv(s, answer);
      case Finish => assert Out(Step(s, a)) == Out(s);
    }
  }

  lemma {:induction false} ExecuteInv(total: nat, steps: seq<Action>)
    requires Legal(total, steps)
    ensures Inv(Execute(total, steps)) && Execute(total, steps).total == total
  {
    if steps == [] {
      TasksAre(total);
    } else {
      ExecuteInv(total, steps[..|steps| - 1]);
      StepInv(Execute(total, steps[..|steps| - 1]), steps[|steps| - 1]);
    }
  }

  /**
   * However the workers are scheduled, whichever of them fail and whatever the handler does: when
   * generateJpeg is left, normally or by an exception, every task has delivered, every segment has
   * been taken out exactly once, and the queue is empty for the next image.
   */
  lemma NothingLeftBehind(total: nat, steps: seq<Action>)
    requires Legal(total, steps)
    requires Execute(total, steps).mode.Returned? || Execute(total, steps).mode.Rethrown?
    ensures var s := Execute(total, steps);
            && s.queue == [] && s.working == {} && |s.taken| == total
            && Distinct(s.taken) && forall t: nat :: t < total <==> t in s.taken
  {
    ExecuteInv(total, steps);
    var s := Execute(total, steps);
    assert |Out(s)| == |s.taken| + |s.queue|;
    assert Out(s) == s.taken;
  }

  /** If it returns, nothing failed, the handler was given every segment exactly once, and the result is its verdict. */
  lemma AllHandled(total: nat, steps: seq<Action>)
    requires Legal(total, steps) && Execute(total, steps).mode.Returned?
    ensures var s := Execute(total, steps);
            && s.handled == s.taken && |s.handled| == total && Distinct(s.handled) && s.failed == {}
            && s.mode.result == AllGood(total, steps)
  {
    NothingLeftBehind(total, steps);
    ExecuteInv(total, steps);
    Verdict(total, steps);
    var s := Execute(total, steps);
    if t :| t in s.failed { FailedIsTask(total, steps, t); }
  }

  /** No answer of the handler was bad. */
  predicate AllGood(total: nat, steps: seq<Action>) {
    steps == [] ||
    (&& AllGood(total, steps[..|steps| - 1])
     && (steps[|steps| - 1].Take? ==> steps[|steps| - 1].answer == Good))
  }

  lemma {:induction false} Verdict(total: nat, steps: seq<Action>)
    requires Legal(total, steps) && (Execute(total, steps).mode.Handling? || Execute(total, steps).mode.Returned?)
    ensures Execute(total, steps).result == AllGood(total, steps)
  {
    if steps != [] { Verdict(total, steps[..|steps| - 1]); }
  }

  lemma {:induction false} FailedIsTask(total: nat, steps: seq<Action>, t: nat)
    requires Legal(total, steps) && t in Execute(total, steps).failed
    ensures t < total
  {
    var before := steps[..|steps| - 1];
    ExecuteInv(total, before);
    if t in Execute(total, before).failed { FailedIsTask(total, before, t); }
    else { FailedWorked(Execute(total, before), steps[|steps| - 1], t); }
  }

  lemma FailedWorked(s: State, a: Action, t: nat)
    requires Enabled(s, a) && t in Step(s, a).failed && t !in s.failed
    ensures t in s.working
  {
  }

  /** No compression has failed and the handler has never thrown. */
  ghost predicate Smooth(steps: seq<Action>) {
    forall k {:trigger steps[k]} :: 0 <= k < |steps| ==>
      (steps[k].Deliver? ==> steps[k].ok) && (steps[k].Take? ==> steps[k].answer != Throws)
  }

  /** So far, and whether somebody has noticed. */
  ghost predicate Noticed(s: State, smooth: bool) {
    && (smooth ==> s.failed == {} && (s.mode.Handling? || s.mode.Returned?))
    && (!smooth ==> s.mode in {Draining, Rethrown} || exists t :: t in s.failed)
  }

  lemma {:induction false} Notices(total: nat, steps: seq<Action>)
    requires Legal(total, steps)
    ensures Noticed(Execute(total, steps), Smooth(steps))
  {
    if steps != [] {
      var before, a := steps[..|steps| - 1], steps[|steps| - 1];
      Notices(total, before);
      SmoothSoFar(before, a);
      assert before + [a] == steps;
      ExecuteInv(total, before);
      NoticesStep(Execute(total, before), Smooth(before), a);
    }
  }

  lemma SmoothSoFar(before: seq<Action>, a: Action)
    ensures Smooth(before + [a]) <==> Smooth(before) && (a.Deliver? ==> a.ok) && (a.Take? ==> a.answer != Throws)
  {
    var steps := before + [a];
    if Smooth(steps) {
      forall k | 0 <= k < |before|
        ensures (before[k].Deliver? ==> before[k].ok) && (before[k].Take? ==> before[k].answer != Throws) {
        assert before[k] == steps[k];
      }
      assert steps[|before|] == a;
    }
  }

  lemma NoticesStep(s: State, smooth: bool, a: Action)
    requires Inv(s) && Enabled(s, a) && Noticed(s, smooth)
    ensures Noticed(Step(s, a), smooth && (a.Deliver? ==> a.ok) && (a.Take? ==> a.answer != Throws))
  {
    if a.Deliver? {
      if t :| t in s.failed { assert t in Step(s, a).failed; }
      if !a.ok { assert a.task in Step(s, a).failed; }
    }
    if t :| t in s.failed { if !a.Deliver? { assert t in Step(s, a).failed; } }
  }

  /**
   * generateJpeg returns if no compression failed and the handler never threw, and otherwise it throws;
   * with AllHandled, when nothing goes wrong every segment is handled and the verdict comes back.
   */
  lemma ReturnsIff(total: nat, steps: seq<Action>)
    requires Legal(total, steps)
    requires Execute(total, steps).mode.Returned? || Execute(total, steps).mode.Rethrown?
    ensures Execute(total, steps).mode.Returned? <==>
            forall k {:trigger steps[k]} :: 0 <= k < |steps| ==>
              (steps[k].Deliver? ==> steps[k].ok) && (steps[k].Take? ==> steps[k].answer != Throws)
  {
    var s := Execute(total, steps);
    Notices(total, steps);
    if s.mode.Returned? && !Smooth(steps) { AllHandled(total, steps); }
  }

  /** What the handler was given are the first segments taken, in that order; once something went wrong, no more. */
  lemma {:induction false} HandledFirst(total: nat, steps: seq<Action>)
    requires Legal(total, steps)
    ensures Execute(total, steps).handled <= Execute(total, steps).taken
    ensures steps != [] && Execute(total, steps[..|steps| - 1]).mode.Draining? ==>
              Execute(total, steps).handled == Execute(total, steps[..|steps| - 1]).handled
  {
    if steps != [] {
      HandledFirst(total, steps[..|steps| - 1]);
      ExecuteInv(total, steps[..|steps| - 1]);
    }
  }

  /** The consumer never waits in vain: while it has segments to take, one is there or a worker is still busy. */
  lemma SomethingComes(total: nat, steps: seq<Action>)
    requires Legal(total, steps)
    requires var s := Execute(total, steps); s.mode in {Handling, Draining} && s.i < s.total
    ensures var s := Execute(total, steps); s.queue != [] || s.working != {}
  {
    ExecuteInv(total, steps);
    var s := Execute(total, steps);
    assert |Out(s)| == |s.taken| + |s.queue|;
  }
}
