/**
 * Exactly when the frames of one client come out as meant, whenever the worker looks (see FrameGate;
 * deflect/StreamPrivate.cpp, deflect/StreamSendWorker.cpp).
 *
 * An enqueue is an insertion and a signal. A request that is inserted and not signalled may be left
 * lying, so it counts as called when it is signalled: a run goes as one in which each call is made,
 * all at once, at that moment. A call that is late there is fetched before the finish that waits.
 */
module FrameOrder {
  import opened Common
  import opened Sums
  import opened FrameGate
  import W = SendWorker

  predicate Flies(s: W.Stream) {
    |s.producers| == 1 && s.producers[0].inFlight && s.producers[0].queue != []
  }

  /** The request that is inserted and not signalled. */
  function Flight(s: W.Stream): W.Request
    requires Flies(s)
  {
    s.producers[0].queue[|s.producers[0].queue| - 1]
  }

  /** The state as if that call had not been made yet; the gate is open, as it plays no part in the order. */
  function Prior(s: W.Stream): W.Stream {
    if !Flies(s) then s.(gate := false)
    else
      var q, n := s.producers[0].queue, |Numbers(Flight(s).tasks)|;
      s.(producers := [W.Producer(q[..|q| - 1], false)], gate := false,
         next := if s.next > 0 then s.next - 1 else 0, accepted := if s.accepted >= n then s.accepted - n else 0)
  }

  /** It has frame messages, and a finish called before it still waits. */
  predicate Overtakes(s: W.Stream) {
    Flies(s) && Numbers(Flight(s).tasks) != [] && FinishWaits(Prior(s))
  }

  /** Some enqueue of the run was signalled while a finish called before it waited. */
  ghost predicate AnyOvertakes(cap: nat, steps: seq<W.Action>) {
    steps != [] &&
    (|| AnyOvertakes(cap, steps[..|steps| - 1])
     || (steps[|steps| - 1].Signal? && Overtakes(W.Execute(cap, 1, steps[..|steps| - 1]))))
  }

  /** The request in flight is what the call has made. */
  ghost predicate FromCall(s: W.Stream, call: W.Call)
    requires Flies(s)
  {
    && s.next > 0 && s.accepted >= |Numbers(Flight(s).tasks)|
    && Flight(s) == W.Request(Prior(s).next, W.Tasks(Prior(s).accepted, call), call == W.FinishFrame)
  }

  ghost predicate Called(s: W.Stream) {
    Flies(s) ==> exists call :: FromCall(s, call)
  }

  /** One client, nothing fetched before its signal. */
  ghost predicate Sound(s: W.Stream) {
    |s.producers| == 1 && (s.producers[0].inFlight ==> s.producers[0].queue != []) && Called(s) && Inv(Prior(s))
  }

  ghost predicate PriorInOrder(s: W.Stream) {
    Plan(Prior(s)) == Upto(Prior(s).accepted)
  }

  // ---------------------------------------------------------------------------------------
  // Calls
  // ---------------------------------------------------------------------------------------

  /** Making the call after all gives the state itself, but for the gate. */
  lemma CallMade(s: W.Stream, call: W.Call)
    requires Flies(s) && FromCall(s, call)
    ensures var prior := Prior(s);
            && W.Enabled(prior, W.Insert(0, call)) && !W.Refused(prior, call)
            && W.Step(prior, W.Insert(0, call)) == s.(gate := W.Step(prior, W.Insert(0, call)).gate)
            && (IsLate(prior, W.Insert(0, call)) <==> Overtakes(s))
  {
    var prior, q := Prior(s), s.producers[0].queue;
    AddedNumbers(prior.accepted, call);
    assert q == q[..|q| - 1] + [q[|q| - 1]];
    assert W.Step(prior, W.Insert(0, call)).producers == s.producers;
  }

  lemma AnyGate(s: W.Stream, gate: bool)
    ensures Plan(s.(gate := gate)) == Plan(s) && (Inv(s.(gate := gate)) <==> Inv(s))
  {
    assert Line(s.(gate := gate)) == Line(s);
  }

  /** What is planned in the end: in order if it was before the call in flight, and that one is not late. */
  lemma FlightOrder(s: W.Stream)
    requires Sound(s)
    ensures Inv(s) && (Plan(s) == Upto(s.accepted) <==> PriorInOrder(s) && !Overtakes(s))
  {
    if Flies(s) {
      var call :| FromCall(s, call);
      CallMade(s, call);
      CallOrder(Prior(s), 0, call);
      CallKeeps(Prior(s), 0, call);
      AnyGate(s, W.Step(Prior(s), W.Insert(0, call)).gate);
    } else {
      AnyGate(s, false);
    }
  }

  lemma InsertSound(s: W.Stream, p: ThreadId, call: W.Call)
    requires Sound(s) && W.Enabled(s, W.Insert(p, call)) && !W.Refused(s, call)
    ensures var s' := W.Step(s, W.Insert(p, call)); Sound(s') && PriorInOrder(s') == PriorInOrder(s)
  {
    InsertFlies(s, p, call);
    assert FromCall(W.Step(s, W.Insert(p, call)), call);
  }

  lemma InsertFlies(s: W.Stream, p: ThreadId, call: W.Call)
    requires |s.producers| == 1 && W.Enabled(s, W.Insert(p, call)) && !W.Refused(s, call)
    ensures var s' := W.Step(s, W.Insert(p, call));
            |s'.producers| == 1 && Flies(s') && Prior(s') == Prior(s) && FromCall(s', call)
  {
    var s', q := W.Step(s, W.Insert(p, call)), s.producers[0].queue;
    AddedNumbers(s.accepted, call);
    assert s'.producers[0].queue[..|q|] == q;
    assert s.producers == [W.Producer(q, false)];
  }

  lemma SignalSound(s: W.Stream, p: ThreadId)
    requires Sound(s) && W.Enabled(s, W.Signal(p))
    ensures var s' := W.Step(s, W.Signal(p)); Sound(s') && (PriorInOrder(s') <==> PriorInOrder(s) && !Overtakes(s))
  {
    var s' := W.Step(s, W.Signal(p));
    FlightOrder(s);
    assert Line(s') == Line(s);
    AnyGate(s', false);
  }

  // ---------------------------------------------------------------------------------------
  // The worker
  // ---------------------------------------------------------------------------------------

  /** a does the same without the request in flight, and leaves that one alone. */
  ghost predicate WorksAlike(s: W.Stream, a: W.Action) {
    var s' := W.Step(s, a);
    && |s'.producers| == |s.producers| == 1 && W.Enabled(Prior(s), a) && Prior(s') == W.Step(Prior(s), a)
    && Flies(s') == Flies(s) && (Flies(s) ==> Flight(s') == Flight(s))
    && s'.next == s.next && s'.accepted == s.accepted && s'.producers[0].inFlight == s.producers[0].inFlight
  }

  /** The worker does the same without the request in flight, which it cannot fetch. */
  lemma PriorWorks(s: W.Stream, x: W.Aux, count: nat, from: ThreadId)
    requires W.Inv(s, x) && |s.producers| == 1 && W.Enabled(s, W.Work(count, from, true))
    ensures WorksAlike(s, W.Work(count, from, true))
  {
    match s.worker.at {
      case Top => PriorTops(s, count, from);
      case Take => PriorTakes(s, count, from);
      case Fetch => PriorFetches(s, x, count, from);
      case Process => PriorProcesses(s, count, from);
    }
  }

  lemma PriorTops(s: W.Stream, count: nat, from: ThreadId)
    requires |s.producers| == 1 && W.Enabled(s, W.Work(count, from, true)) && s.worker.at == W.Top
    ensures WorksAlike(s, W.Work(count, from, true))
  {
    PriorTurns(s, s.(worker := s.worker.(at := if s.running then W.Take else W.Exited)));
  }

  lemma PriorTakes(s: W.Stream, count: nat, from: ThreadId)
    requires |s.producers| == 1 && W.Enabled(s, W.Work(count, from, true)) && s.worker.at == W.Take
    ensures WorksAlike(s, W.Work(count, from, true))
  {
    PriorTurns(s, W.TakeTurn(s, count));
  }

  lemma PriorProcesses(s: W.Stream, count: nat, from: ThreadId)
    requires |s.producers| == 1 && W.Enabled(s, W.Work(count, from, true)) && s.worker.at == W.Process
    ensures WorksAlike(s, W.Work(count, from, true))
  {
    PriorPerforms(s);
  }

  lemma PriorFetches(s: W.Stream, x: W.Aux, count: nat, from: ThreadId)
    requires W.Inv(s, x) && |s.producers| == 1 && W.Enabled(s, W.Work(count, from, true)) && s.worker.at == W.Fetch
    ensures WorksAlike(s, W.Work(count, from, true))
  {
    OneQueue(s, x);
    RedeemedPrior(s, from);
  }

  /** Turns do not look at the queue. */
  lemma PriorTurns(s: W.Stream, s': W.Stream)
    requires s' == s.(permits := s'.permits, worker := s'.worker, pending := s'.pending)
    ensures Flies(s') == Flies(s) && (Flies(s) ==> Flight(s') == Flight(s))
    ensures Prior(s') == Prior(s).(permits := s'.permits, worker := s'.worker, pending := s'.pending)
  {
  }

  lemma PriorPerforms(s: W.Stream)
    ensures var s' := W.Perform(s, true);
            && Prior(s') == W.Perform(Prior(s), true)
            && Flies(s') == Flies(s) && (Flies(s) ==> Flight(s') == Flight(s))
            && s'.next == s.next && s'.accepted == s.accepted && s'.producers == s.producers
  {
    PerformIgnores(s, Prior(s));
  }

  /** A task does not look at the queue either, and opens the gate at most. */
  lemma PerformIgnores(s: W.Stream, other: W.Stream)
    requires other.worker == s.worker && other.pending == s.pending && other.sent == s.sent && !other.gate
    ensures var s' := W.Perform(s, true);
            && s' == s.(worker := s'.worker, pending := s'.pending, sent := s'.sent, gate := s'.gate)
            && W.Perform(other, true) == other.(worker := s'.worker, pending := s'.pending, sent := s'.sent)
  {
  }

  lemma OneQueue(s: W.Stream, x: W.Aux)
    requires W.Inv(s, x) && |s.producers| == 1
    ensures |s.producers[0].queue| == s.permits + s.worker.want + if s.producers[0].inFlight then 1 else 0
  {
    assert s.producers == [] + [s.producers[0]];
    TotalAppend([], s.producers[0], W.Size);
    TotalAppend([], s.producers[0], W.Flying);
  }

  lemma RedeemedPrior(s: W.Stream, from: ThreadId)
    requires |s.producers| == 1 && s.worker.want > 0 && from == 0
    requires |s.producers[0].queue| > if s.producers[0].inFlight then 1 else 0
    ensures W.QueueOf(Prior(s), from) != [] && Flies(W.Redeem(s, from)) == Flies(s)
    ensures Flies(s) ==> Flight(W.Redeem(s, from)) == Flight(s)
    ensures Prior(W.Redeem(s, from)) == W.Redeem(Prior(s), from)
  {
    var q := s.producers[0].queue;
    if Flies(s) {
      assert q[1..][..|q| - 2] == q[..|q| - 1][1..];
    }
  }

  /** It turns to a finish when nothing but the request in flight is left. */
  lemma PriorIsDone(s: W.Stream, x: W.Aux, count: nat, from: ThreadId)
    requires W.Inv(s, x) && Sound(s) && W.Enabled(s, W.Work(count, from, true)) && W.Commits(s, count)
    ensures Line(Prior(s)) == []
  {
    OneQueue(s, x);
  }

  lemma WorkSound(s: W.Stream, x: W.Aux, count: nat, from: ThreadId)
    requires W.Inv(s, x) && Sound(s) && W.Enabled(s, W.Work(count, from, true))
    ensures var s' := W.Step(s, W.Work(count, from, true)); Sound(s') && PriorInOrder(s') == PriorInOrder(s)
  {
    var s', a := W.Step(s, W.Work(count, from, true)), W.Work(count, from, true);
    PriorWorks(s, x, count, from);
    if W.Commits(s, count) { PriorIsDone(s, x, count, from); }
    OrderStep(Prior(s), a);
    WorkKeepsCall(Prior(s), count, from);
    StillCalled(s, s');
  }

  lemma WorkKeepsCall(s: W.Stream, count: nat, from: ThreadId)
    ensures var s' := W.Step(s, W.Work(count, from, true)); s'.next == s.next && s'.accepted == s.accepted
  {
  }

  lemma StillCalled(s: W.Stream, s': W.Stream)
    requires Sound(s) && Inv(Prior(s')) && |s'.producers| == 1
    requires Flies(s') == Flies(s) && s'.producers[0].inFlight == s.producers[0].inFlight
    requires Flies(s) ==> Flight(s') == Flight(s)
    requires s'.next == s.next && s'.accepted == s.accepted
    ensures Sound(s')
  {
    if Flies(s) {
      var call :| FromCall(s, call);
      assert FromCall(s', call);
    }
  }

  // ---------------------------------------------------------------------------------------
  // Runs
  // ---------------------------------------------------------------------------------------

  lemma StepSound(s: W.Stream, x: W.Aux, a: W.Action)
    requires W.Inv(s, x) && Sound(s) && W.Enabled(s, a) && (a.Work? ==> a.ok) && !a.Stop? && !a.Drain?
    ensures Sound(W.Step(s, a))
    ensures PriorInOrder(W.Step(s, a)) <==> PriorInOrder(s) && !(a.Signal? && Overtakes(s))
  {
    match a {
      case Insert(p, call) => if !W.Refused(s, call) { InsertSound(s, p, call); }
      case Signal(p) => SignalSound(s, p);
      case Work(count, from, ok) => WorkSound(s, x, count, from);
    }
  }

  lemma {:induction false} RunSound(cap: nat, steps: seq<W.Action>)
    requires Good(cap, steps)
    ensures Sound(W.Execute(cap, 1, steps))
    ensures PriorInOrder(W.Execute(cap, 1, steps)) <==> !AnyOvertakes(cap, steps)
  {
    if steps == [] {
      assert Line(W.Init(cap, 1)) == [] && Line(Prior(W.Init(cap, 1))) == [];
    } else {
      var before, a := steps[..|steps| - 1], steps[|steps| - 1];
      GoodPrefix(cap, steps);
      RunSound(cap, before);
      W.ExecuteInv(cap, 1, before);
      assert steps[|steps| - 1] == a;
      StepSound(W.Execute(cap, 1, before), W.History(cap, 1, before), a);
    }
  }

  /**
   * The exact condition, for every run of one client: what has been sent and what is still to be sent are
   * the frame messages in the order they were accepted, if and only if no request with frame messages was
   * signalled, or is waiting to be, while a finish called before it waits.
   */
  lemma InOrderExactly(cap: nat, steps: seq<W.Action>)
    requires Good(cap, steps)
    ensures var s := W.Execute(cap, 1, steps);
            Plan(s) == Upto(s.accepted) <==> !AnyOvertakes(cap, steps) && !Overtakes(s)
  {
    RunSound(cap, steps);
    FlightOrder(W.Execute(cap, 1, steps));
  }

  /** So once everything is done, the wire has carried the messages in order exactly if no call overtook a finish. */
  lemma SentExactly(cap: nat, steps: seq<W.Action>)
    requires Good(cap, steps)
    requires Line(W.Execute(cap, 1, steps)) == [] && W.Execute(cap, 1, steps).pending.None?
    ensures W.Execute(cap, 1, steps).sent == Upto(W.Execute(cap, 1, steps).accepted) <==> !AnyOvertakes(cap, steps)
  {
    var s := W.Execute(cap, 1, steps);
    InOrderExactly(cap, steps);
    assert Plan(s) == s.sent;
    assert |Line(s)| == |Rest(s.worker)| + |W.QueueOf(s, 0)|;
  }
}
