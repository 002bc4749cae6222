/**
 * The send thread of a stream (deflect/StreamSendWorker.cpp) and the gate in front of it
 * (deflect/StreamPrivate.cpp, deflect/TaskBuilder.cpp).
 *
 * Any number of threads enqueue requests; each enqueue inserts first and signals afterwards, in two
 * steps. The queue keeps the order of one producer only, so the worker postpones a request marked
 * as finish until it finds no permit (see BlockingQueue.NoPermitMeansInFlight). One step is one
 * operation of the queue, one task of a request, or one branch of the worker's loop.
 */
module SendWorker {
  import opened Common
  import opened Sums

  /** Message(n): send the n-th frame message (segments of an image, or FINISH_FRAME) accepted so far. */
  datatype Task = Message(number: nat) | OpenGate | Quiet

  /** id: how many requests were enqueued before it. */
  datatype Request = Request(id: nat, tasks: seq<Task>, isFinish: bool)

  /** A client thread's own queue; inFlight: its last insertion is not signalled yet. */
  datatype Producer = Producer(queue: seq<Request>, inFlight: bool)

  datatype Label = Top | Take | Fetch | Process | Exited

  datatype Worker = Worker(at: Label, want: nat, batch: seq<Request>, pos: nat, task: nat)

  datatype Stream = Stream(
    cap: nat,                    // _dequeuedRequests.size(), hardware_concurrency() / 2
    producers: seq<Producer>,
    permits: nat,                // what the semaphore would grant
    worker: Worker,
    pending: Option<Request>,    // _pendingFinish, _finishRequest
    running: bool,
    gate: bool,                  // StreamPrivate's _pendingFinish: no image is accepted
    next: nat,                   // requests enqueued so far
    accepted: nat,               // frame messages accepted so far
    sent: seq<nat>)              // frame messages sent, in order

  /** The calls a client makes. */
  datatype Call =
    | SendImage                  // sendImage without finish
    | SendAndFinish              // sendImage of a large image with finish: one request
    | FinishFrame                // sendFinishFrame, also the second half of a small sendImage with finish
    | Other                      // everything that is not part of a frame, and stop's empty request

  datatype Action =
    | Insert(caller: ThreadId, call: Call)
    | Signal(caller: ThreadId)
    | Stop                                             // _running = false
    | Work(count: nat, from: ThreadId, ok: bool)       // one step of the worker
    | Drain(from: ThreadId)                            // stop(), after the worker has exited

  function Min(a: nat, b: nat): nat {
    if a < b then a else b
  }

  predicate Refused(s: Stream, call: Call) {
    s.gate && call in {SendImage, SendAndFinish}
  }

  function Tasks(n: nat, call: Call): seq<Task> {
    match call
    case SendImage => [Message(n)]
    case SendAndFinish => [Message(n), Message(n + 1), OpenGate]
    case FinishFrame => [Message(n), OpenGate]
    case Other => [Quiet]
  }

  function MessagesOf(call: Call): nat {
    match call
    case SendImage => 1
    case SendAndFinish => 2
    case FinishFrame => 1
    case Other => 0
  }

  function QueueOf(s: Stream, p: ThreadId): seq<Request> {
    if p < |s.producers| then s.producers[p].queue else []
  }

  /** wait_dequeue_bulk grants one permit at least, and up to cap; try_dequeue_bulk all it can. */
  predicate Grants(s: Stream, count: nat) {
    if s.pending.None? then (s.cap == 0 && count == 0) || 0 < count <= Min(s.cap, s.permits)
    else count == Min(s.cap, s.permits)
  }

  predicate Enabled(s: Stream, a: Action) {
    match a
    case Insert(p, _) => p < |s.producers| && !s.producers[p].inFlight
    case Signal(p) => p < |s.producers| && s.producers[p].inFlight
    case Stop => true
    case Work(count, from, _) =>
      && s.worker.at != Exited
      && (s.worker.at == Take ==> Grants(s, count))
      && (s.worker.at == Fetch ==> QueueOf(s, from) != [])
    case Drain(p) => s.worker.at == Exited && QueueOf(s, p) != [] && s.permits > 0
  }

  function Current(w: Worker): Request {
    if w.pos < |w.batch| then w.batch[w.pos] else Request(0, [], false)
  }

  /** The request at hand is settled: on to the next one. */
  function Advance(w: Worker): Worker {
    if w.pos + 1 < |w.batch| then w.(pos := w.pos + 1, task := 0) else Worker(Top, 0, [], 0, 0)
  }

  /** The finish request is to be processed now: it is the last one standing. */
  predicate Commits(s: Stream, count: nat) {
    s.worker.at == Take && s.pending.Some? && count == 0
  }

  function TakeTurn(s: Stream, count: nat): Stream {
    if Commits(s, count) then
      s.(pending := None, worker := Worker(Process, 0, [s.pending.value.(isFinish := false)], 0, 0))
    else if count == 0 || count > s.permits then s.(worker := s.worker.(at := Top))
    else s.(permits := s.permits - count, worker := Worker(Fetch, count, [], 0, 0))
  }

  function Redeem(s: Stream, from: ThreadId): Stream {
    if QueueOf(s, from) == [] || s.worker.want == 0 then s else
    var w, queue := s.worker, QueueOf(s, from);
    s.(producers := s.producers[from := s.producers[from].(queue := queue[1..])],
       worker := w.(at := if w.want == 1 then Process else Fetch, want := w.want - 1, batch := w.batch + [queue[0]]))
  }

  /** One task; failing or throwing, it ends the request. */
  function Perform(s: Stream, ok: bool): Stream {
    var w, r := s.worker, Current(s.worker);
    if r.isFinish then s.(pending := if s.pending.Some? then s.pending else Some(r), worker := Advance(w))
    else if w.task >= |r.tasks| || !ok then s.(worker := Advance(w))
    else
      var s' := s.(worker := w.(task := w.task + 1));
      match r.tasks[w.task]
      case Message(n) => s'.(sent := s.sent + [n])
      case OpenGate => s'.(gate := false)
      case Quiet => s'
  }

  function Step(s: Stream, a: Action): Stream {
    match a
    case Insert(p, call) =>
      if p >= |s.producers| || Refused(s, call) then s else
      var r := Request(s.next, Tasks(s.accepted, call), call == FinishFrame);
      s.(producers := s.producers[p := Producer(s.producers[p].queue + [r], true)],
         gate := s.gate || call == FinishFrame, next := s.next + 1, accepted := s.accepted + MessagesOf(call))
    case Signal(p) =>
      if p >= |s.producers| then s
      else s.(producers := s.producers[p := s.producers[p].(inFlight := false)], permits := s.permits + 1)
    case Stop => s.(running := false)
    case Work(count, from, ok) =>
      (match s.worker.at
       case Top => s.(worker := s.worker.(at := if s.running then Take else Exited))
       case Take => TakeTurn(s, count)
       case Fetch => Redeem(s, from)
       case Process => Perform(s, ok)
       case Exited => s)
    case Drain(p) =>
      if QueueOf(s, p) == [] || s.permits == 0 then s
      else s.(producers := s.producers[p := s.producers[p].(queue := s.producers[p].queue[1..])],
              permits := s.permits - 1)
  }

  // ---------------------------------------------------------------------------------------
  // Bookkeeping
  // ---------------------------------------------------------------------------------------

  /** How a request's promise was settled. */
  datatype Fate = Ran(success: bool) | Rejected | Discarded

  datatype Settlement = Settlement(id: nat, fate: Fate)

  datatype Place = InQueue | InBatch(index: nat) | Postponed | Settled(at: nat)

  /** Per request: who enqueued it, whether as a finish, and where it is now; log: all settlements in order. */
  datatype Aux = Aux(owner: seq<ThreadId>, finish: seq<bool>, place: seq<Place>, log: seq<Settlement>)

  function Move(x: Aux, id: nat, p: Place): Aux {
    if id < |x.place| then x.(place := x.place[id := p]) else x
  }

  function Settle(x: Aux, id: nat, fate: Fate): Aux {
    Move(x, id, Settled(|x.log|)).(log := x.log + [Settlement(id, fate)])
  }

  function AuxStep(s: Stream, x: Aux, a: Action): Aux {
    match a
    case Insert(p, call) =>
      if p >= |s.producers| || Refused(s, call) then x
      else x.(owner := x.owner + [p], finish := x.finish + [call == FinishFrame], place := x.place + [InQueue])
    case Signal(_) => x
    case Stop => x
    case Drain(p) =>
      if QueueOf(s, p) == [] || s.permits == 0 then x else Settle(x, QueueOf(s, p)[0].id, Discarded)
    case Work(count, from, ok) =>
      var w, r := s.worker, Current(s.worker);
      match w.at
      case Top => x
      case Take => if Commits(s, count) then Move(x, s.pending.value.id, InBatch(0)) else x
      case Fetch =>
        if QueueOf(s, from) == [] || w.want == 0 then x else Move(x, QueueOf(s, from)[0].id, InBatch(|w.batch|))
      case Process =>
        if r.isFinish then (if s.pending.Some? then Settle(x, r.id, Rejected) else Move(x, r.id, Postponed))
        else if w.task >= |r.tasks| || !ok then Settle(x, r.id, Ran(w.task >= |r.tasks|))
        else x
      case Exited => x
  }

  function Size(p: Producer): nat {
    |p.queue|
  }

  function Flying(p: Producer): nat {
    if p.inFlight then 1 else 0
  }

  /** Requests whose enqueue has returned and that are still in the queue. */
  function Complete(p: Producer): nat {
    if p.inFlight && p.queue != [] then |p.queue| - 1 else |p.queue|
  }

  /** One request that was fetched before its enqueue has returned. */
  function Early(p: Producer): nat {
    if p.inFlight && p.queue == [] then 1 else 0
  }

  ghost predicate ProducerOk(s: Stream, x: Aux, p: ThreadId)
    requires p < |s.producers|
  {
    var q := s.producers[p].queue;
    && (forall k {:trigger q[k]} :: 0 <= k < |q| ==>
          && q[k].id < |x.place| && q[k].id < |x.owner| && q[k].id < |x.finish|
          && x.owner[q[k].id] == p && x.place[q[k].id] == InQueue && x.finish[q[k].id] == q[k].isFinish)
    && (forall j, k :: 0 <= j < k < |q| ==> q[j].id < q[k].id)
  }

  ghost predicate Holds(q: seq<Request>, id: nat) {
    exists k :: 0 <= k < |q| && q[k].id == id
  }

  /** Request i is where its place says, and its owner's queue holds only later ones once it is out. */
  ghost predicate RequestOk(s: Stream, x: Aux, i: nat)
    requires i < |x.place| == |x.owner|
  {
    && x.owner[i] < |s.producers|
    && (match x.place[i]
        case InQueue => Holds(s.producers[x.owner[i]].queue, i)
        case InBatch(k) => s.worker.pos <= k < |s.worker.batch| && s.worker.batch[k].id == i
        case Postponed => s.pending.Some? && s.pending.value.id == i
        case Settled(k) => k < |x.log| && x.log[k].id == i)
    && (x.place[i] != InQueue ==> Later(s.producers[x.owner[i]].queue, i))
  }

  ghost predicate Later(q: seq<Request>, i: nat) {
    forall k {:trigger q[k]} :: 0 <= k < |q| ==> i < q[k].id
  }

  ghost predicate BatchOk(s: Stream, x: Aux, k: nat)
    requires k < |s.worker.batch|
  {
    var id := s.worker.batch[k].id;
    && id < |x.place| && id < |x.finish| && (k >= s.worker.pos ==> x.place[id] == InBatch(k))
    && (s.worker.batch[k].isFinish ==> x.finish[id])
  }

  ghost predicate LogOk(x: Aux, k: nat)
    requires k < |x.log|
  {
    x.log[k].id < |x.place| && x.place[x.log[k].id] == Settled(k)
  }

  ghost predicate Shape(s: Stream, x: Aux) {
    && |x.owner| == |x.finish| == |x.place| == s.next
    && Total(s.producers, Size) == s.permits + s.worker.want + Total(s.producers, Flying)
    && (s.worker.at in {Top, Take, Exited} ==> s.worker == Worker(s.worker.at, 0, [], 0, 0))
    && (s.worker.at == Fetch <==> s.worker.want > 0)
    && (s.worker.at == Fetch ==> s.worker.pos == s.worker.task == 0)
    && (s.worker.at == Process ==> s.worker.pos < |s.worker.batch|)
    && (s.pending.Some? ==>
          && s.pending.value.id < |x.place| && x.place[s.pending.value.id] == Postponed
          && x.finish[s.pending.value.id] && s.cap > 0)
    && (s.worker.batch != [] ==> s.cap > 0)
    && (s.worker.want > 0 ==> s.cap > 0)
  }

  ghost predicate Inv(s: Stream, x: Aux) {
    && Shape(s, x)
    && (forall p {:trigger ProducerOk(s, x, p)} :: 0 <= p < |s.producers| ==> ProducerOk(s, x, p))
    && (forall i {:trigger RequestOk(s, x, i)} :: 0 <= i < |x.place| ==> RequestOk(s, x, i))
    && (forall k {:trigger BatchOk(s, x, k)} :: 0 <= k < |s.worker.batch| ==> BatchOk(s, x, k))
    && (forall k {:trigger LogOk(x, k)} :: 0 <= k < |x.log| ==> LogOk(x, k))
  }

  // ---------------------------------------------------------------------------------------
  // Every step keeps the books
  // ---------------------------------------------------------------------------------------

  lemma InsertInv(s: Stream, x: Aux, p: ThreadId, call: Call)
    requires Inv(s, x) && Enabled(s, Insert(p, call)) && !Refused(s, call)
    ensures Inv(Step(s, Insert(p, call)), AuxStep(s, x, Insert(p, call)))
  {
    var s', x' := Step(s, Insert(p, call)), AuxStep(s, x, Insert(p, call));
    TotalUpdate(s.producers, p, s'.producers[p], Size);
    TotalUpdate(s.producers, p, s'.producers[p], Flying);
    forall q | 0 <= q < |s'.producers| ensures ProducerOk(s', x', q) { assert ProducerOk(s, x, q); }
    InsertRequests(s, x, p, call);
    forall k | 0 <= k < |s'.worker.batch| ensures BatchOk(s', x', k) { assert BatchOk(s, x, k); }
    forall k | 0 <= k < |x'.log| ensures LogOk(x', k) { assert LogOk(x, k); }
  }

  lemma InsertRequests(s: Stream, x: Aux, p: ThreadId, call: Call)
    requires Inv(s, x) && Enabled(s, Insert(p, call)) && !Refused(s, call)
    ensures var s', x' := Step(s, Insert(p, call)), AuxStep(s, x, Insert(p, call));
            && |x'.place| == |x'.owner|
            && forall i {:trigger RequestOk(s', x', i)} | 0 <= i < |x'.place| :: RequestOk(s', x', i)
  {
    var s', x' := Step(s, Insert(p, call)), AuxStep(s, x, Insert(p, call));
    forall i | 0 <= i < |x'.place| ensures RequestOk(s', x', i) {
      var q, q' := s.producers[p].queue, s'.producers[p].queue;
      if i < s.next {
        assert RequestOk(s, x, i);
        if x.place[i] == InQueue && x.owner[i] == p {
          var k :| 0 <= k < |q| && q[k].id == i;
          assert q'[k].id == i;
        }
      } else {
        assert q'[|q|].id == i;
      }
    }
  }

  lemma SignalInv(s: Stream, x: Aux, p: ThreadId)
    requires Inv(s, x) && Enabled(s, Signal(p))
    ensures Inv(Step(s, Signal(p)), x)
  {
    var s' := Step(s, Signal(p));
    TotalUpdate(s.producers, p, s'.producers[p], Size);
    TotalUpdate(s.producers, p, s'.producers[p], Flying);
    forall q | 0 <= q < |s'.producers| ensures ProducerOk(s', x, q) { assert ProducerOk(s, x, q); }
    forall i | 0 <= i < |x.place| ensures RequestOk(s', x, i) { assert RequestOk(s, x, i); }
    forall k | 0 <= k < |s'.worker.batch| ensures BatchOk(s', x, k) { assert BatchOk(s, x, k); }
  }

  /** Taking the first request out of p's queue, to place to. */
  ghost predicate Pops(s: Stream, x: Aux, s': Stream, x': Aux, p: ThreadId, to: Place) {
    && p < |s.producers| && s.producers[p].queue != []
    && s'.producers == s.producers[p := s.producers[p].(queue := s.producers[p].queue[1..])]
    && x'.owner == x.owner && x'.finish == x.finish && |x'.place| == |x.place|
    && s.producers[p].queue[0].id < |x.place|
    && x'.place == x.place[s.producers[p].queue[0].id := to] && to != InQueue
  }

  lemma PopProducer(s: Stream, x: Aux, s': Stream, x': Aux, p: ThreadId, to: Place, q: ThreadId)
    requires Inv(s, x) && Pops(s, x, s', x', p, to) && q < |s.producers|
    ensures ProducerOk(s', x', q)
  {
    assert ProducerOk(s, x, p) && ProducerOk(s, x, q);
    var id := s.producers[p].queue[0].id;
    var old_, new_ := s.producers[q].queue, s'.producers[q].queue;
    forall k | 0 <= k < |new_|
      ensures new_[k].id < |x'.place| && new_[k].id < |x'.owner| && new_[k].id < |x'.finish|
      ensures x'.owner[new_[k].id] == q && x'.place[new_[k].id] == InQueue && x'.finish[new_[k].id] == new_[k].isFinish {
      if q == p { assert new_[k] == old_[k + 1]; } else { assert new_[k] == old_[k]; }
    }
  }

  lemma PopRequest(s: Stream, x: Aux, s': Stream, x': Aux, p: ThreadId, to: Place, i: nat)
    requires Inv(s, x) && Pops(s, x, s', x', p, to) && i < |x.place|
    ensures x.owner[i] < |s'.producers|
    ensures x'.place[i] == InQueue ==> Holds(s'.producers[x.owner[i]].queue, i)
    ensures x'.place[i] != InQueue ==> Later(s'.producers[x.owner[i]].queue, i)
  {
    assert ProducerOk(s, x, p) && RequestOk(s, x, i);
    var q, q' := s.producers[p].queue, s'.producers[p].queue;
    forall k | 0 <= k < |q'| ensures q'[k] == q[k + 1] && q[0].id < q'[k].id {}
    if x'.place[i] == InQueue && x.owner[i] == p {
      var k :| 0 <= k < |q| && q[k].id == i;
      assert q'[k - 1].id == i;
    }
  }

  /** Popping for the batch or for stop: everything but the request itself is as before. */
  lemma PopInv(s: Stream, x: Aux, s': Stream, x': Aux, p: ThreadId, to: Place)
    requires Inv(s, x) && Pops(s, x, s', x', p, to) && Shape(s', x')
    requires s'.pending == s.pending && s'.worker.pos == s.worker.pos == 0
    requires |s.worker.batch| <= |s'.worker.batch| && s'.worker.batch[..|s.worker.batch|] == s.worker.batch
    requires |x.log| <= |x'.log| && x'.log[..|x.log|] == x.log
    requires RequestOk(s', x', s.producers[p].queue[0].id)
    requires forall k {:trigger BatchOk(s', x', k)} :: |s.worker.batch| <= k < |s'.worker.batch| ==> BatchOk(s', x', k)
    requires forall k {:trigger LogOk(x', k)} :: |x.log| <= k < |x'.log| ==> LogOk(x', k)
    ensures Inv(s', x')
  {
    var id := s.producers[p].queue[0].id;
    assert ProducerOk(s, x, p);
    forall q | 0 <= q < |s'.producers| ensures ProducerOk(s', x', q) { PopProducer(s, x, s', x', p, to, q); }
    forall i | 0 <= i < |x'.place| ensures RequestOk(s', x', i) {
      if i != id {
        assert RequestOk(s, x, i);
        PopRequest(s, x, s', x', p, to, i);
        assert x.place[i].Settled? ==> x'.log[x.place[i].at] == x'.log[..|x.log|][x.place[i].at];
        assert x.place[i].InBatch? ==>
          s'.worker.batch[x.place[i].index] == s'.worker.batch[..|s.worker.batch|][x.place[i].index];
      }
    }
    forall k | 0 <= k < |s'.worker.batch| ensures BatchOk(s', x', k) {
      if k < |s.worker.batch| { assert BatchOk(s, x, k) && s'.worker.batch[k] == s'.worker.batch[..|s.worker.batch|][k]; }
    }
    forall k | 0 <= k < |x'.log| ensures LogOk(x', k) {
      if k < |x.log| { assert LogOk(x, k) && x'.log[k] == x'.log[..|x.log|][k]; }
    }
  }

  lemma RedeemShape(s: Stream, x: Aux, count: nat, from: ThreadId, ok: bool)
    requires Inv(s, x) && s.worker.at == Fetch && QueueOf(s, from) != []
    ensures var s', x' := Step(s, Work(count, from, ok)), AuxStep(s, x, Work(count, from, ok));
            && Shape(s', x') && Pops(s, x, s', x', from, InBatch(|s.worker.batch|))
            && s'.pending == s.pending && s'.worker.pos == s.worker.pos == 0 && x'.log == x.log
            && s'.worker.batch == s.worker.batch + [s.producers[from].queue[0]]
  {
    var s' := Step(s, Work(count, from, ok));
    assert ProducerOk(s, x, from);
    TotalUpdate(s.producers, from, s'.producers[from], Size);
    TotalUpdate(s.producers, from, s'.producers[from], Flying);
  }

  lemma RedeemInv(s: Stream, x: Aux, count: nat, from: ThreadId, ok: bool)
    requires Inv(s, x) && s.worker.at == Fetch && QueueOf(s, from) != []
    ensures Inv(Step(s, Work(count, from, ok)), AuxStep(s, x, Work(count, from, ok)))
  {
    var s', x' := Step(s, Work(count, from, ok)), AuxStep(s, x, Work(count, from, ok));
    RedeemShape(s, x, count, from, ok);
    Redeemed(s, x, s', x', from);
  }

  lemma Redeemed(s: Stream, x: Aux, s': Stream, x': Aux, from: ThreadId)
    requires Inv(s, x) && Shape(s', x') && Pops(s, x, s', x', from, InBatch(|s.worker.batch|))
    requires s'.pending == s.pending && s'.worker.pos == s.worker.pos == 0 && x'.log == x.log
    requires s'.worker.batch == s.worker.batch + [s.producers[from].queue[0]]
    ensures Inv(s', x')
  {
    var r := s.producers[from].queue[0];
    assert ProducerOk(s, x, from);
    PopRequest(s, x, s', x', from, InBatch(|s.worker.batch|), r.id);
    assert s'.worker.batch[..|s.worker.batch|] == s.worker.batch && s'.worker.batch[|s.worker.batch|] == r;
    PopInv(s, x, s', x', from, InBatch(|s.worker.batch|));
  }

  lemma DrainInv(s: Stream, x: Aux, p: ThreadId)
    requires Inv(s, x) && Enabled(s, Drain(p))
    ensures Inv(Step(s, Drain(p)), AuxStep(s, x, Drain(p)))
  {
    var s', x' := Step(s, Drain(p)), AuxStep(s, x, Drain(p));
    var to, id := Settled(|x.log|), s.producers[p].queue[0].id;
    assert ProducerOk(s, x, p);
    TotalUpdate(s.producers, p, s'.producers[p], Size);
    TotalUpdate(s.producers, p, s'.producers[p], Flying);
    PopRequest(s, x, s', x', p, to, id);
    PopInv(s, x, s', x', p, to);
  }

  lemma TurnInv(s: Stream, x: Aux, count: nat, from: ThreadId, ok: bool)
    requires Inv(s, x) && s.worker.at == Take && Enabled(s, Work(count, from, ok))
    ensures Inv(Step(s, Work(count, from, ok)), AuxStep(s, x, Work(count, from, ok)))
  {
    var s', x' := Step(s, Work(count, from, ok)), AuxStep(s, x, Work(count, from, ok));
    forall q | 0 <= q < |s'.producers| ensures ProducerOk(s', x', q) { assert ProducerOk(s, x, q); }
    forall i | 0 <= i < |x'.place| ensures RequestOk(s', x', i) { assert RequestOk(s, x, i); }
    forall k | 0 <= k < |s'.worker.batch| ensures BatchOk(s', x', k) { assert k == 0; }
    forall k | 0 <= k < |x'.log| ensures LogOk(x', k) { assert LogOk(x, k); }
  }

  /** The request at hand goes to place to, and the worker moves on. */
  lemma SettleInv(s: Stream, x: Aux, s': Stream, x': Aux, to: Place)
    requires Inv(s, x) && s.worker.at == Process
    requires s'.producers == s.producers && s'.permits == s.permits && s'.next == s.next && s'.cap == s.cap
    requires s'.worker == Advance(s.worker)
    requires x'.owner == x.owner && x'.finish == x.finish && |x'.place| == |x.place|
    requires Current(s.worker).id < |x.place| && x'.place == x.place[Current(s.worker).id := to]
    requires match to
             case Settled(k) => k == |x.log| && |x'.log| == k + 1 && x'.log[..k] == x.log
                                && x'.log[k].id == Current(s.worker).id && s'.pending == s.pending
             case Postponed => x'.log == x.log && s.pending.None? && s'.pending == Some(Current(s.worker))
                               && Current(s.worker).isFinish
             case _ => false
    ensures Inv(s', x')
  {
    var w, id := s.worker, Current(s.worker).id;
    assert BatchOk(s, x, w.pos);
    assert RequestOk(s, x, id);
    forall q | 0 <= q < |s'.producers| ensures ProducerOk(s', x', q) { assert ProducerOk(s, x, q); }
    forall i | 0 <= i < |x'.place| ensures RequestOk(s', x', i) {
      assert RequestOk(s, x, i);
      if x.place[i].InBatch? && x.place[i].index == w.pos { assert i == id; }
      if x.place[i].Settled? { assert x'.log[x.place[i].at] == x'.log[..|x.log|][x.place[i].at]; }
    }
    forall k | 0 <= k < |s'.worker.batch| ensures BatchOk(s', x', k) { assert BatchOk(s, x, k); }
    forall k | 0 <= k < |x'.log| ensures LogOk(x', k) {
      if k < |x.log| { assert LogOk(x, k); assert x'.log[k] == x'.log[..|x.log|][k]; }
    }
  }

  lemma PostponeInv(s: Stream, x: Aux, count: nat, from: ThreadId, ok: bool)
    requires Inv(s, x) && s.worker.at == Process && Current(s.worker).isFinish && s.pending.None?
    ensures Inv(Step(s, Work(count, from, ok)), AuxStep(s, x, Work(count, from, ok)))
  {
    assert BatchOk(s, x, s.worker.pos);
    SettleInv(s, x, Step(s, Work(count, from, ok)), AuxStep(s, x, Work(count, from, ok)), Postponed);
  }

  lemma PerformInv(s: Stream, x: Aux, count: nat, from: ThreadId, ok: bool)
    requires Inv(s, x) && s.worker.at == Process
    ensures Inv(Step(s, Work(count, from, ok)), AuxStep(s, x, Work(count, from, ok)))
  {
    var s', x' := Step(s, Work(count, from, ok)), AuxStep(s, x, Work(count, from, ok));
    var w, r := s.worker, Current(s.worker);
    assert BatchOk(s, x, w.pos);
    if r.isFinish && s.pending.None? {
      PostponeInv(s, x, count, from, ok);
    } else if r.isFinish || w.task >= |r.tasks| || !ok {
      SettleInv(s, x, s', x', Settled(|x.log|));
    } else {
      SameBooks(s, x, s');
    }
  }

  /** A step that touches neither queues nor requests. */
  lemma SameBooks(s: Stream, x: Aux, s': Stream)
    requires Inv(s, x) && Shape(s', x)
    requires s'.producers == s.producers && s'.pending == s.pending
    requires s'.worker.batch == s.worker.batch && s'.worker.pos == s.worker.pos
    ensures Inv(s', x)
  {
    forall q | 0 <= q < |s'.producers| ensures ProducerOk(s', x, q) { assert ProducerOk(s, x, q); }
    forall i | 0 <= i < |x.place| ensures RequestOk(s', x, i) { assert RequestOk(s, x, i); }
    forall k | 0 <= k < |s'.worker.batch| ensures BatchOk(s', x, k) { assert BatchOk(s, x, k); }
  }

  lemma StepInv(s: Stream, x: Aux, a: Action)
    requires Inv(s, x) && Enabled(s, a)
    ensures Inv(Step(s, a), AuxStep(s, x, a))
  {
    match a {
      case Insert(p, call) => if !Refused(s, call) { InsertInv(s, x, p, call); }
      case Signal(p) => SignalInv(s, x, p);
      case Stop => SameBooks(s, x, s.(running := false));
      case Drain(p) => DrainInv(s, x, p);
      case Work(count, from, ok) =>
        match s.worker.at {
          case Top => SameBooks(s, x, Step(s, a));
          case Take => TurnInv(s, x, count, from, ok);
          case Fetch => RedeemInv(s, x, count, from, ok);
          case Process => PerformInv(s, x, count, from, ok);
        }
    }
  }

  // ---------------------------------------------------------------------------------------
  // Runs
  // ---------------------------------------------------------------------------------------

  function Init(cap: nat, threads: nat): Stream {
    Stream(cap, seq(threads, _ => Producer([], false)), 0, Worker(Top, 0, [], 0, 0), None, true, false, 0, 0, [])
  }

  function Execute(cap: nat, threads: nat, steps: seq<Action>): Stream {
    if steps == [] then Init(cap, threads) else Step(Execute(cap, threads, steps[..|steps| - 1]), steps[|steps| - 1])
  }

  function History(cap: nat, threads: nat, steps: seq<Action>): Aux {
    if steps == [] then Aux([], [], [], [])
    else AuxStep(Execute(cap, threads, steps[..|steps| - 1]), History(cap, threads, steps[..|steps| - 1]),
                 steps[|steps| - 1])
  }

  ghost predicate Legal(cap: nat, threads: nat, steps: seq<Action>) {
    steps == [] ||
    (&& Legal(cap, threads, steps[..|steps| - 1])
     && Enabled(Execute(cap, threads, steps[..|steps| - 1]), steps[|steps| - 1]))
  }

  lemma {:induction false} ExecuteInv(cap: nat, threads: nat, steps: seq<Action>)
    requires Legal(cap, threads, steps)
    ensures Inv(Execute(cap, threads, steps), History(cap, threads, steps))
  {
    if steps == [] {
      TotalZero(Init(cap, threads).producers, Size);
      TotalZero(Init(cap, threads).producers, Flying);
    } else {
      ExecuteInv(cap, threads, steps[..|steps| - 1]);
      StepInv(Execute(cap, threads, steps[..|steps| - 1]), History(cap, threads, steps[..|steps| - 1]),
              steps[|steps| - 1]);
    }
  }

  /** No promise is settled twice. */
  lemma SettledOnce(cap: nat, threads: nat, steps: seq<Action>, j: nat, k: nat)
    requires Legal(cap, threads, steps)
    requires j < |History(cap, threads, steps).log| && k < |History(cap, threads, steps).log|
    requires History(cap, threads, steps).log[j].id == History(cap, threads, steps).log[k].id
    ensures j == k
  {
    ExecuteInv(cap, threads, steps);
    assert LogOk(History(cap, threads, steps), j) && LogOk(History(cap, threads, steps), k);
  }

  /**
   * No request is lost: with all queues empty, the worker between two rounds (or gone), every request
   * is settled, except a finish that is still postponed. Stopping then leaves that one unsettled.
   */
  lemma AllSettled(cap: nat, threads: nat, steps: seq<Action>, i: nat)
    requires Legal(cap, threads, steps) && i < Execute(cap, threads, steps).next
    requires Idle(Execute(cap, threads, steps))
    ensures IsSettled(History(cap, threads, steps), i) || IsPostponed(Execute(cap, threads, steps), i)
  {
    ExecuteInv(cap, threads, steps);
    IdleSettled(Execute(cap, threads, steps), History(cap, threads, steps), i);
  }

  ghost predicate IsSettled(x: Aux, i: nat) {
    exists k :: 0 <= k < |x.log| && x.log[k].id == i
  }

  ghost predicate IsPostponed(s: Stream, i: nat) {
    s.pending.Some? && s.pending.value.id == i
  }

  ghost predicate Idle(s: Stream) {
    && s.worker.at in {Top, Take, Exited}
    && forall p {:trigger s.producers[p]} :: 0 <= p < |s.producers| ==> s.producers[p].queue == []
  }

  lemma IdleSettled(s: Stream, x: Aux, i: nat)
    requires Inv(s, x) && Idle(s) && i < s.next
    ensures IsSettled(x, i) || IsPostponed(s, i)
  {
    assert RequestOk(s, x, i);
    assert s.producers[x.owner[i]].queue == [];
  }

  // ---------------------------------------------------------------------------------------
  // The barrier
  // ---------------------------------------------------------------------------------------

  lemma {:induction false} CompleteAndEarly(ps: seq<Producer>)
    ensures Total(ps, Size) + Total(ps, Early) == Total(ps, Complete) + Total(ps, Flying)
  {
    if ps != [] { CompleteAndEarly(ps[..|ps| - 1]); }
  }

  /**
   * How far the barrier holds, exactly: when the worker turns to the postponed finish request, as many
   * requests whose enqueue has returned are still in the queue as there are requests that were fetched
   * before their own enqueue has returned. Each of those redeemed another request's permit.
   */
  lemma BarrierExact(cap: nat, threads: nat, steps: seq<Action>)
    requires Legal(cap, threads, steps)
    requires Commits(Execute(cap, threads, steps), 0) && Grants(Execute(cap, threads, steps), 0)
    ensures var s := Execute(cap, threads, steps); Total(s.producers, Complete) == Total(s.producers, Early)
  {
    ExecuteInv(cap, threads, steps);
    CompleteAndEarly(Execute(cap, threads, steps).producers);
  }

  /** Request i is the one some thread is enqueueing, and nothing else is in that thread's queue. */
  ghost predicate BeingEnqueued(s: Stream, i: nat) {
    exists p: ThreadId {:trigger s.producers[p]} ::
      p < |s.producers| && s.producers[p].inFlight && |s.producers[p].queue| == 1 && s.producers[p].queue[0].id == i
  }

  /** If none was fetched early, whatever is not settled by then is the finish itself or still being enqueued. */
  lemma BarrierHolds(cap: nat, threads: nat, steps: seq<Action>, i: nat)
    requires Legal(cap, threads, steps) && i < Execute(cap, threads, steps).next
    requires Commits(Execute(cap, threads, steps), 0) && Grants(Execute(cap, threads, steps), 0)
    requires Total(Execute(cap, threads, steps).producers, Early) == 0
    ensures IsSettled(History(cap, threads, steps), i) || IsPostponed(Execute(cap, threads, steps), i)
            || BeingEnqueued(Execute(cap, threads, steps), i)
  {
    ExecuteInv(cap, threads, steps);
    BarrierState(Execute(cap, threads, steps), History(cap, threads, steps), i);
  }

  lemma BarrierState(s: Stream, x: Aux, i: nat)
    requires Inv(s, x) && s.worker.at == Take && s.permits == 0 && Total(s.producers, Early) == 0 && i < s.next
    ensures IsSettled(x, i) || IsPostponed(s, i) || BeingEnqueued(s, i)
  {
    CompleteAndEarly(s.producers);
    assert RequestOk(s, x, i);
    if x.place[i] == InQueue {
      TotalAtLeast(s.producers, x.owner[i], Complete);
      assert s.producers[x.owner[i]].inFlight;
    }
  }

  /** Request i is settled before position limit. */
  ghost predicate SettledBy(x: Aux, i: nat, limit: nat) {
    i < |x.place| && x.place[i].Settled? && x.place[i].at < limit
  }

  /** Every request enqueued before id (all: by anybody; otherwise by the same thread) is settled before limit. */
  ghost predicate Preceded(x: Aux, id: nat, limit: nat, all: bool) {
    id < |x.owner| && forall i {:trigger SettledBy(x, i, limit)} ::
      0 <= i < id && (all || x.owner[i] == x.owner[id]) ==> SettledBy(x, i, limit)
  }

  ghost predicate FinishLast(s: Stream, x: Aux, all: bool) {
    && (forall k {:trigger x.log[k]} :: 0 <= k < |x.log| && x.log[k].id < |x.finish| && x.finish[x.log[k].id] && x.log[k].fate.Ran? ==>
          Preceded(x, x.log[k].id, k, all))
    && (forall k {:trigger s.worker.batch[k]} ::
          (s.worker.pos <= k < |s.worker.batch| && s.worker.batch[k].id < |x.finish|
           && x.finish[s.worker.batch[k].id] && !s.worker.batch[k].isFinish) ==>
            Preceded(x, s.worker.batch[k].id, |x.log|, all))
  }

  ghost predicate Quietly(s: Stream) {
    forall p {:trigger s.producers[p]} :: 0 <= p < |s.producers| ==> !s.producers[p].inFlight
  }

  /** Settled requests stay settled, and owners do not change. */
  ghost predicate Extends(x: Aux, x': Aux) {
    && |x.owner| == |x.place| == |x.finish| <= |x'.owner| == |x'.place| == |x'.finish|
    && (forall i {:trigger x'.owner[i]} :: 0 <= i < |x.owner| ==> x'.owner[i] == x.owner[i])
    && (forall i {:trigger x'.finish[i]} :: 0 <= i < |x.owner| ==> x'.finish[i] == x.finish[i])
    && (forall i {:trigger x'.place[i]} :: 0 <= i < |x.place| && x.place[i].Settled? ==> x'.place[i] == x.place[i])
    && |x.log| <= |x'.log| && x'.log[..|x.log|] == x.log
  }

  lemma PrecededKept(x: Aux, x': Aux, id: nat, limit: nat, limit': nat, all: bool)
    requires Extends(x, x') && limit <= limit' && Preceded(x, id, limit, all)
    ensures Preceded(x', id, limit', all)
  {
    forall i | 0 <= i < id && (all || x'.owner[i] == x'.owner[id]) ensures SettledBy(x', i, limit') {
      assert x'.owner[i] == x.owner[i] && x'.owner[id] == x.owner[id];
      assert SettledBy(x, i, limit);
      assert x'.place[i] == x.place[i];
    }
  }

  /** The worker turns to the postponed request: those that must precede it do. */
  lemma CommitPreceded(s: Stream, x: Aux, all: bool)
    requires Inv(s, x) && Commits(s, 0) && Grants(s, 0) && (all ==> Quietly(s))
    ensures Preceded(x, s.pending.value.id, |x.log|, all)
  {
    var id := s.pending.value.id;
    assert RequestOk(s, x, id);
    forall i | 0 <= i < id && (all || x.owner[i] == x.owner[id]) ensures SettledBy(x, i, |x.log|) {
      assert RequestOk(s, x, i);
      if x.place[i] == InQueue && all {
        forall p | 0 <= p < |s.producers| ensures Flying(s.producers[p]) == 0 { assert !s.producers[p].inFlight; }
        TotalZero(s.producers, Flying);
        TotalAtLeast(s.producers, x.owner[i], Size);
      }
    }
  }

  lemma StepExtends(s: Stream, x: Aux, a: Action)
    requires Inv(s, x) && Enabled(s, a)
    ensures Extends(x, AuxStep(s, x, a))
  {
    if a.Work? {
      if s.worker.at == Process { assert BatchOk(s, x, s.worker.pos); }
      if s.worker.at == Fetch { assert ProducerOk(s, x, a.from); }
    }
    if a.Drain? { assert ProducerOk(s, x, a.from); }
  }

  lemma FinishLastStep(s: Stream, x: Aux, a: Action, all: bool)
    requires Inv(s, x) && Enabled(s, a) && FinishLast(s, x, all) && (all && a.Work? && Commits(s, a.count) ==> Quietly(s))
    ensures FinishLast(Step(s, a), AuxStep(s, x, a), all)
  {
    var s', x' := Step(s, a), AuxStep(s, x, a);
    StepExtends(s, x, a);
    forall k | 0 <= k < |x'.log| && x'.log[k].id < |x'.finish| && x'.finish[x'.log[k].id] && x'.log[k].fate.Ran?
      ensures Preceded(x', x'.log[k].id, k, all) {
      if k < |x.log| {
        assert x'.log[k] == x'.log[..|x.log|][k] && LogOk(x, k);
        PrecededKept(x, x', x.log[k].id, k, k, all);
      } else {
        assert BatchOk(s, x, s.worker.pos);
        PrecededKept(x, x', s.worker.batch[s.worker.pos].id, |x.log|, k, all);
      }
    }
    forall k | s'.worker.pos <= k < |s'.worker.batch| && s'.worker.batch[k].id < |x'.finish|
               && x'.finish[s'.worker.batch[k].id] && !s'.worker.batch[k].isFinish
      ensures Preceded(x', s'.worker.batch[k].id, |x'.log|, all) {
      BatchPreceded(s, x, a, all, k);
    }
  }

  lemma BatchPreceded(s: Stream, x: Aux, a: Action, all: bool, k: nat)
    requires Inv(s, x) && Enabled(s, a) && FinishLast(s, x, all) && (all && a.Work? && Commits(s, a.count) ==> Quietly(s))
    requires Extends(x, AuxStep(s, x, a))
    requires Step(s, a).worker.pos <= k < |Step(s, a).worker.batch|
    requires Step(s, a).worker.batch[k].id < |AuxStep(s, x, a).finish|
    requires AuxStep(s, x, a).finish[Step(s, a).worker.batch[k].id] && !Step(s, a).worker.batch[k].isFinish
    ensures Preceded(AuxStep(s, x, a), Step(s, a).worker.batch[k].id, |AuxStep(s, x, a).log|, all)
  {
    var x', r := AuxStep(s, x, a), Step(s, a).worker.batch[k];
    if a.Work? && Commits(s, a.count) {
      CommitPreceded(s, x, all);
      PrecededKept(x, x', r.id, |x.log|, |x'.log|, all);
    } else if k < |s.worker.batch| {
      StaysInBatch(s, a, k);
      assert BatchOk(s, x, k);
      PrecededKept(x, x', r.id, |x.log|, |x'.log|, all);
    } else {
      FetchedFlag(s, x, a);
    }
  }

  /** Unless the worker turns to a new batch, what is left of the old one stands where it was. */
  lemma StaysInBatch(s: Stream, a: Action, k: nat)
    requires Enabled(s, a) && !(a.Work? && Commits(s, a.count)) && k < |s.worker.batch|
    requires Step(s, a).worker.pos <= k < |Step(s, a).worker.batch|
    ensures s.worker.pos <= k && Step(s, a).worker.batch[k] == s.worker.batch[k]
  {
  }

  /** A request just fetched is still marked as it was when it was enqueued. */
  lemma FetchedFlag(s: Stream, x: Aux, a: Action)
    requires Inv(s, x) && Enabled(s, a) && Extends(x, AuxStep(s, x, a))
    requires |s.worker.batch| < |Step(s, a).worker.batch| && !(a.Work? && Commits(s, a.count))
    ensures |Step(s, a).worker.batch| == |s.worker.batch| + 1
    ensures var r := Step(s, a).worker.batch[|s.worker.batch|];
            r.id < |AuxStep(s, x, a).finish| && AuxStep(s, x, a).finish[r.id] == r.isFinish
  {
    assert ProducerOk(s, x, a.from);
    var r := s.producers[a.from].queue[0];
    assert AuxStep(s, x, a).finish[r.id] == x.finish[r.id];
  }

  /** The worker never turns to a finish while an enqueue is half-done. */
  ghost predicate QuietCommits(cap: nat, threads: nat, steps: seq<Action>) {
    steps == [] ||
    (&& QuietCommits(cap, threads, steps[..|steps| - 1])
     && var s, a := Execute(cap, threads, steps[..|steps| - 1]), steps[|steps| - 1];
     (a.Work? && Commits(s, a.count) ==> Quietly(s)))
  }

  lemma {:induction false} FinishLastAlways(cap: nat, threads: nat, steps: seq<Action>, all: bool)
    requires Legal(cap, threads, steps) && (all ==> QuietCommits(cap, threads, steps))
    ensures FinishLast(Execute(cap, threads, steps), History(cap, threads, steps), all)
  {
    if steps != [] {
      FinishLastAlways(cap, threads, steps[..|steps| - 1], all);
      ExecuteInv(cap, threads, steps[..|steps| - 1]);
      FinishLastStep(Execute(cap, threads, steps[..|steps| - 1]), History(cap, threads, steps[..|steps| - 1]),
                     steps[|steps| - 1], all);
    }
  }

  ghost predicate SettledBefore(x: Aux, i: nat, k: nat) {
    exists j :: 0 <= j < k && j < |x.log| && x.log[j].id == i
  }

  /**
   * The barrier, whatever order the queue delivers in: a finish request runs after every request its
   * own thread enqueued before it; and after every request anybody enqueued before it, if no enqueue is
   * half-done at the moment when the worker turns to a finish.
   */
  lemma FinishRunsLast(cap: nat, threads: nat, steps: seq<Action>, k: nat, i: nat)
    requires Legal(cap, threads, steps) && k < |History(cap, threads, steps).log|
    requires var x := History(cap, threads, steps);
             && x.log[k].fate.Ran? && x.log[k].id < |x.finish| && x.finish[x.log[k].id]
             && i < x.log[k].id && i < |x.owner| && x.log[k].id < |x.owner|
    requires QuietCommits(cap, threads, steps)
             || History(cap, threads, steps).owner[i]
                == History(cap, threads, steps).owner[History(cap, threads, steps).log[k].id]
    ensures SettledBefore(History(cap, threads, steps), i, k)
  {
    var s, x := Execute(cap, threads, steps), History(cap, threads, steps);
    var all := x.owner[i] != x.owner[x.log[k].id];
    FinishLastAlways(cap, threads, steps, all);
    ExecuteInv(cap, threads, steps);
    assert Preceded(x, x.log[k].id, k, all);
    assert SettledBy(x, i, k);
    assert RequestOk(s, x, i);
    assert x.log[x.place[i].at].id == i;
  }

  /** Some run leads to s. */
  ghost predicate Reachable(cap: nat, threads: nat, s: Stream) {
    exists steps :: Legal(cap, threads, steps) && Execute(cap, threads, steps) == s
  }

  lemma Go(cap: nat, threads: nat, a: Action, before: Stream, after: Stream)
    requires Reachable(cap, threads, before) && Enabled(before, a) && Step(before, a) == after
    ensures Reachable(cap, threads, after)
  {
    var steps :| Legal(cap, threads, steps) && Execute(cap, threads, steps) == before;
    assert (steps + [a])[..|steps|] == steps;
    assert Legal(cap, threads, steps + [a]);
  }

  const IMAGE: Request := Request(0, [Message(0)], false)
  const OTHER: Request := Request(1, [Quiet], false)
  const FINISH: Request := Request(2, [Message(1), OpenGate], true)

  /** Thread 0 has enqueued an image and thread 2 a finish request; thread 1 has inserted and not signalled yet. */
  function Crowd(): Stream {
    Stream(2, [Producer([IMAGE], false), Producer([OTHER], true), Producer([FINISH], false)], 2,
           Worker(Top, 0, [], 0, 0), None, true, true, 3, 2, [])
  }

  /** What inserting into an empty queue of its own does. */
  function Inserted(s: Stream, p: ThreadId, call: Call): Stream
    requires p < |s.producers|
  {
    s.(producers := s.producers[p := Producer([Request(s.next, Tasks(s.accepted, call), call == FinishFrame)], true)],
       gate := s.gate || call == FinishFrame, next := s.next + 1, accepted := s.accepted + MessagesOf(call))
  }

  function Signalled(s: Stream, p: ThreadId): Stream
    requires p < |s.producers|
  {
    s.(producers := s.producers[p := s.producers[p].(inFlight := false)], permits := s.permits + 1)
  }

  lemma GoInsert(cap: nat, threads: nat, p: ThreadId, call: Call, s: Stream)
    requires Reachable(cap, threads, s)
    requires p < |s.producers| && s.producers[p] == Producer([], false) && !Refused(s, call)
    ensures Reachable(cap, threads, Inserted(s, p, call))
  {
    var r := Request(s.next, Tasks(s.accepted, call), call == FinishFrame);
    assert [] + [r] == [r];
    Go(cap, threads, Insert(p, call), s, Inserted(s, p, call));
  }

  const NOTHING: Producer := Producer([], false)

  /** The image is queued, then the other request is in, then the finish request. */
  function ImageIn(): Stream {
    Stream(2, [Producer([IMAGE], false), NOTHING, NOTHING], 1, Worker(Top, 0, [], 0, 0), None, true, false, 1, 1, [])
  }

  function OtherIn(): Stream {
    ImageIn().(producers := [Producer([IMAGE], false), Producer([OTHER], true), NOTHING], next := 2)
  }

  function FinishIn(): Stream {
    OtherIn().(producers := [Producer([IMAGE], false), Producer([OTHER], true), Producer([FINISH], true)],
               gate := true, next := 3, accepted := 2)
  }

  lemma ImageArises()
    ensures Reachable(2, 3, ImageIn())
  {
    assert Legal(2, 3, []);
    var s1 := Inserted(Init(2, 3), 0, SendImage);
    GoInsert(2, 3, 0, SendImage, Init(2, 3));
    assert Signalled(s1, 0).producers == ImageIn().producers;
    Go(2, 3, Signal(0), s1, ImageIn());
  }

  lemma OtherArises()
    ensures Reachable(2, 3, OtherIn())
  {
    ImageArises();
    GoInsert(2, 3, 1, Other, ImageIn());
    assert Inserted(ImageIn(), 1, Other).producers == OtherIn().producers;
  }

  lemma FinishArises()
    ensures Reachable(2, 3, FinishIn())
  {
    OtherArises();
    GoInsert(2, 3, 2, FinishFrame, OtherIn());
    assert Inserted(OtherIn(), 2, FinishFrame).producers == FinishIn().producers;
  }

  lemma CrowdArises()
    ensures Reachable(2, 3, Crowd())
  {
    FinishArises();
    assert Signalled(FinishIn(), 2).producers == Crowd().producers;
    Go(2, 3, Signal(2), FinishIn(), Crowd());
  }

  /** From there: the worker takes both permits ... */
  function Granted(): Stream {
    Crowd().(permits := 0, worker := Worker(Fetch, 2, [], 0, 0))
  }

  lemma PermitsGranted()
    ensures Reachable(2, 3, Granted())
  {
    var s6 := Crowd().(worker := Worker(Take, 0, [], 0, 0));
    CrowdArises();
    Go(2, 3, Work(0, 0, true), Crowd(), s6);
    Go(2, 3, Work(2, 0, true), s6, Granted());
  }

  /** ... and buys the requests of threads 1 and 2 with them: none is left for the image. */
  function Bought(): Stream {
    Crowd().(permits := 0, worker := Worker(Process, 0, [OTHER, FINISH], 0, 0),
             producers := [Producer([IMAGE], false), Producer([], true), Producer([], false)])
  }

  function HalfBought(): Stream {
    Granted().(producers := [Producer([IMAGE], false), Producer([], true), Producer([FINISH], false)],
               worker := Worker(Fetch, 1, [OTHER], 0, 0))
  }

  lemma OnePermitGone()
    ensures Reachable(2, 3, HalfBought())
  {
    PermitsGranted();
    assert [OTHER][1..] == [];
    assert Step(Granted(), Work(0, 1, true)).producers == HalfBought().producers;
    Go(2, 3, Work(0, 1, true), Granted(), HalfBought());
  }

  lemma PermitsGone()
    ensures Reachable(2, 3, Bought())
  {
    OnePermitGone();
    assert [FINISH][1..] == [];
    assert Step(HalfBought(), Work(0, 2, true)).producers == Bought().producers;
    assert Step(HalfBought(), Work(0, 2, true)).worker == Bought().worker;
    Go(2, 3, Work(0, 2, true), HalfBought(), Bought());
  }

  /** Why the barrier needs its condition: here the worker turns to the finish while a complete image waits. */
  lemma BarrierCanBreak() returns (s: Stream)
    ensures Reachable(2, 3, s) && Commits(s, 0) && Grants(s, 0) && s.pending == Some(FINISH)
    ensures |s.producers| == 3 && s.producers[0] == Producer([IMAGE], false)
  {
    PermitsGone();
    var go := Work(0, 0, true);
    var s10 := Bought().(worker := Worker(Process, 0, [OTHER, FINISH], 0, 1));
    var s11 := Bought().(worker := Worker(Process, 0, [OTHER, FINISH], 1, 0));
    var s12 := Bought().(worker := Worker(Top, 0, [], 0, 0), pending := Some(FINISH));
    s := s12.(worker := Worker(Take, 0, [], 0, 0));
    Go(2, 3, go, Bought(), s10);
    Go(2, 3, go, s10, s11);
    Go(2, 3, go, s11, s12);
    Go(2, 3, go, s12, s);
  }

  /** With a single hardware thread the batch has no room, and the worker never gets to a request. */
  lemma {:induction false} NoRoomNoProgress(threads: nat, steps: seq<Action>)
    requires Legal(0, threads, steps)
    ensures Execute(0, threads, steps).sent == []
    ensures forall k {:trigger History(0, threads, steps).log[k]} :: 0 <= k < |History(0, threads, steps).log| ==>
              History(0, threads, steps).log[k].fate == Discarded
  {
    if steps != [] {
      NoRoomNoProgress(threads, steps[..|steps| - 1]);
      ExecuteInv(0, threads, steps[..|steps| - 1]);
      SameRoom(0, threads, steps[..|steps| - 1]);
    }
  }

  lemma {:induction false} SameRoom(cap: nat, threads: nat, steps: seq<Action>)
    ensures Execute(cap, threads, steps).cap == cap && |Execute(cap, threads, steps).producers| == threads
  {
    if steps != [] {
      SameRoom(cap, threads, steps[..|steps| - 1]);
      RoomKept(Execute(cap, threads, steps[..|steps| - 1]), steps[|steps| - 1]);
    }
  }

  lemma RoomKept(s: Stream, a: Action)
    ensures Step(s, a).cap == s.cap && |Step(s, a).producers| == |s.producers|
  {
  }
}
