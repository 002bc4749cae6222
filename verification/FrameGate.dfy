/**
 * Frames of one client thread: when does FINISH_FRAME separate the segments of consecutive frames?
 * (deflect/StreamPrivate.cpp sendImage, sendFinishFrame, _finishFrameDone; deflect/TaskBuilder.cpp;
 * the worker is the machine of module SendWorker.)
 *
 * Frame messages are numbered in the order the client's calls were accepted, so the wire carries the
 * frames the client meant exactly when the numbers leave in order.
 */
module FrameGate {
  import opened Common
  import opened Sums
  import W = SendWorker

  /** The messages of a request's tasks. */
  function Numbers(tasks: seq<W.Task>): seq<nat> {
    if tasks == [] then []
    else (if tasks[0].Message? then [tasks[0].number] else []) + Numbers(tasks[1..])
  }

  /** What the worker has fetched and not finished; the request at hand without the tasks that are done. */
  function Rest(w: W.Worker): seq<W.Request> {
    if w.pos >= |w.batch| then []
    else [w.batch[w.pos].(tasks := if w.task <= |w.batch[w.pos].tasks| then w.batch[w.pos].tasks[w.task..] else [])]
         + w.batch[w.pos + 1..]
  }

  /** All requests still to be looked at, in the order the worker will see them. */
  function Line(s: W.Stream): seq<W.Request> {
    Rest(s.worker) + W.QueueOf(s, 0)
  }

  /** Messages of the requests that are run when their turn comes. */
  function Body(line: seq<W.Request>): seq<nat> {
    if line == [] then []
    else Body(line[..|line| - 1]) + Own(line[|line| - 1])
  }

  function Own(r: W.Request): seq<nat> {
    if r.isFinish then [] else Numbers(r.tasks)
  }

  /** The finish request that will be run last: the postponed one or else the first in line; later ones are rejected. */
  function Last(pending: Option<W.Request>, line: seq<W.Request>): Option<W.Request>
    decreases line
  {
    if pending.Some? || line == [] then pending
    else Last(if line[0].isFinish then Some(line[0]) else None, line[1..])
  }

  function Closing(pending: Option<W.Request>, line: seq<W.Request>): seq<nat> {
    if Last(pending, line).Some? then Numbers(Last(pending, line).value.tasks) else []
  }

  /** What the wire has carried and will carry if no further call is made. */
  function Plan(s: W.Stream): seq<nat> {
    PlanOf(s.sent, s.pending, Line(s))
  }

  function PlanOf(sent: seq<nat>, pending: Option<W.Request>, line: seq<W.Request>): seq<nat> {
    sent + Body(line) + Closing(pending, line)
  }

  /** A finish request waits for the worker to find nothing else. */
  predicate FinishWaits(s: W.Stream) {
    Last(s.pending, Line(s)).Some?
  }

  /** A call that adds frame messages while a finish request waits. */
  predicate IsLate(s: W.Stream, a: W.Action) {
    a.Insert? && !W.Refused(s, a.call) && a.call != W.Other && FinishWaits(s)
  }

  function Upto(n: nat): (r: seq<nat>)
    ensures |r| == n && forall i :: 0 <= i < n ==> r[i] == i
  {
    seq(n, i => i)
  }

  // ---------------------------------------------------------------------------------------
  // Lines
  // ---------------------------------------------------------------------------------------

  lemma {:induction false} BodyAppend(a: seq<W.Request>, b: seq<W.Request>)
    ensures Body(a + b) == Body(a) + Body(b)
  {
    if b == [] {
      assert a + b == a;
    } else {
      assert (a + b)[..|a + b| - 1] == a + b[..|b| - 1];
      BodyAppend(a, b[..|b| - 1]);
      Regroup(Body(a), Body(b[..|b| - 1]), Own(b[|b| - 1]));
    }
  }

  lemma BodyHead(line: seq<W.Request>)
    requires line != []
    ensures Body(line) == Own(line[0]) + Body(line[1..])
  {
    assert line == [line[0]] + line[1..];
    BodyAppend([line[0]], line[1..]);
    BodyOne(line[0]);
  }

  lemma BodyOne(r: W.Request)
    ensures Body([r]) == Own(r)
  {
    assert [r][..0] == [];
  }

  lemma {:induction false} LastAppend(pending: Option<W.Request>, line: seq<W.Request>, r: W.Request)
    ensures Last(pending, line + [r]) ==
            if Last(pending, line).Some? then Last(pending, line) else if r.isFinish then Some(r) else None
    decreases line
  {
    if pending.None? && line != [] {
      assert (line + [r])[1..] == line[1..] + [r];
      LastAppend(if line[0].isFinish then Some(line[0]) else None, line[1..], r);
    } else if pending.None? {
      assert (line + [r])[1..] == [];
    }
  }

  lemma LastHead(pending: Option<W.Request>, line: seq<W.Request>)
    requires line != []
    ensures Last(pending, line) == Last(if pending.None? && line[0].isFinish then Some(line[0]) else pending, line[1..])
  {
  }

  /** A request that sends no frame message. */
  predicate Silent(r: W.Request) {
    !r.isFinish && Numbers(r.tasks) == []
  }

  ghost predicate AllSilent(line: seq<W.Request>) {
    forall k {:trigger line[k]} :: 0 <= k < |line| ==> Silent(line[k])
  }

  /** All requests behind the first finish are silent. */
  ghost predicate SilentAfter(pending: Option<W.Request>, line: seq<W.Request>)
    decreases line
  {
    if pending.Some? then AllSilent(line)
    else line == [] || SilentAfter(if line[0].isFinish then Some(line[0]) else None, line[1..])
  }

  lemma {:induction false} SilentBody(line: seq<W.Request>)
    requires AllSilent(line)
    ensures Body(line) == [] && Last(None, line).None? && SilentAfter(None, line)
  {
    if line != [] {
      forall k | 0 <= k < |line[1..]| ensures Silent(line[1..][k]) { assert line[1..][k] == line[k + 1]; }
      SilentBody(line[1..]);
      assert Silent(line[0]);
      BodyHead(line);
    }
  }

  lemma {:induction false} SilentAppend(pending: Option<W.Request>, line: seq<W.Request>, r: W.Request)
    requires SilentAfter(pending, line) && (Last(pending, line).Some? ==> Silent(r))
    ensures SilentAfter(pending, line + [r])
    decreases line
  {
    if pending.Some? {
      forall k | 0 <= k < |line + [r]| ensures Silent((line + [r])[k]) { if k < |line| { assert Silent(line[k]); } }
    } else if line != [] {
      assert (line + [r])[1..] == line[1..] + [r];
      SilentAppend(if line[0].isFinish then Some(line[0]) else None, line[1..], r);
    } else {
      assert (line + [r])[1..] == [];
      assert SilentAfter(None, []) && AllSilent([]);
    }
  }

  lemma SilentTail(pending: Option<W.Request>, line: seq<W.Request>)
    requires line != [] && SilentAfter(pending, line)
    ensures SilentAfter(if pending.None? && line[0].isFinish then Some(line[0]) else pending, line[1..])
  {
    if pending.Some? {
      forall k | 0 <= k < |line[1..]| ensures Silent(line[1..][k]) { assert line[1..][k] == line[k + 1]; }
    }
  }

  lemma SilentTask(pending: Option<W.Request>, line: seq<W.Request>, line': seq<W.Request>)
    requires line != [] && !line[0].isFinish && line[0].tasks != [] && SilentAfter(pending, line)
    requires line' == [line[0].(tasks := line[0].tasks[1..])] + line[1..]
    ensures SilentAfter(pending, line')
  {
    assert line'[1..] == line[1..];
    if pending.Some? {
      assert Silent(line[0]);
      forall k | 0 <= k < |line'| ensures Silent(line'[k]) { if k > 0 { assert line'[k] == line[k]; } }
    }
  }

  ghost predicate WellFormed(r: W.Request) {
    r.isFinish ==> |r.tasks| == 2 && r.tasks[0].Message? && r.tasks[1] == W.OpenGate
  }

  ghost predicate AllFormed(line: seq<W.Request>) {
    forall k {:trigger line[k]} :: 0 <= k < |line| ==> WellFormed(line[k])
  }

  ghost predicate Below(plan: seq<nat>, n: nat) {
    forall k {:trigger plan[k]} :: 0 <= k < |plan| ==> plan[k] < n
  }

  ghost predicate WorkerOk(w: W.Worker) {
    && (w.at in {W.Top, W.Take, W.Exited} ==> w == W.Worker(w.at, 0, [], 0, 0))
    && (w.at == W.Fetch ==> w.pos == w.task == 0)
    && (w.at == W.Process ==> w.pos < |w.batch|)
    && (w.pos < |w.batch| ==>
          w.task <= |w.batch[w.pos].tasks| && (w.batch[w.pos].isFinish ==> w.task == 0))
  }

  /** One client; finish requests are what sendFinishFrame makes them; every planned number has been given out. */
  ghost predicate Inv(s: W.Stream) {
    && |s.producers| == 1
    && WorkerOk(s.worker)
    && (s.pending.Some? ==> s.pending.value.isFinish && WellFormed(s.pending.value))
    && AllFormed(Line(s))
    && Below(Plan(s), s.accepted)
  }

  lemma {:induction false} LastFormed(pending: Option<W.Request>, line: seq<W.Request>)
    requires pending.Some? ==> pending.value.isFinish && WellFormed(pending.value)
    requires AllFormed(line)
    ensures Last(pending, line).Some? ==> Last(pending, line).value.isFinish && WellFormed(Last(pending, line).value)
    decreases line
  {
    if pending.None? && line != [] {
      forall k | 0 <= k < |line[1..]| ensures WellFormed(line[1..][k]) { assert line[1..][k] == line[k + 1]; }
      LastFormed(if line[0].isFinish then Some(line[0]) else None, line[1..]);
    }
  }

  /** Postponing or rejecting the first in line, or finishing with it, leaves the plan as it is. */
  lemma DropHead(sent: seq<nat>, pending: Option<W.Request>, line: seq<W.Request>)
    requires line != [] && (line[0].isFinish || line[0].tasks == [])
    ensures PlanOf(sent, if pending.None? && line[0].isFinish then Some(line[0]) else pending, line[1..])
            == PlanOf(sent, pending, line)
  {
    BodyHead(line);
    LastHead(pending, line);
    assert Body(line) == Body(line[1..]) by { assert [] + Body(line[1..]) == Body(line[1..]); }
  }

  /** So does performing its next task. */
  lemma DoTask(sent: seq<nat>, pending: Option<W.Request>, line: seq<W.Request>, line': seq<W.Request>)
    requires line != [] && !line[0].isFinish && line[0].tasks != []
    requires line' == [line[0].(tasks := line[0].tasks[1..])] + line[1..]
    ensures PlanOf(if line[0].tasks[0].Message? then sent + [line[0].tasks[0].number] else sent, pending, line')
            == PlanOf(sent, pending, line)
  {
    var x := if line[0].tasks[0].Message? then [line[0].tasks[0].number] else [];
    TaskBody(line, line', x);
    assert line'[1..] == line[1..];
    Regroup(sent, x, Body(line'));
    assert sent + [] == sent;
    SameLast(pending, line, line');
  }

  lemma TaskBody(line: seq<W.Request>, line': seq<W.Request>, x: seq<nat>)
    requires line != [] && !line[0].isFinish && line[0].tasks != []
    requires line' == [line[0].(tasks := line[0].tasks[1..])] + line[1..]
    requires x == if line[0].tasks[0].Message? then [line[0].tasks[0].number] else []
    ensures Body(line) == x + Body(line')
  {
    BodyHead(line);
    BodyHead(line');
    assert line'[1..] == line[1..];
    Regroup(x, Numbers(line'[0].tasks), Body(line[1..]));
  }

  lemma Regroup(a: seq<nat>, b: seq<nat>, c: seq<nat>)
    ensures (a + b) + c == a + (b + c)
  {
  }

  lemma SameLast(pending: Option<W.Request>, line: seq<W.Request>, line': seq<W.Request>)
    requires line != [] && line' != [] && line'[1..] == line[1..] && !line[0].isFinish && !line'[0].isFinish
    ensures Last(pending, line') == Last(pending, line)
  {
  }

  // ---------------------------------------------------------------------------------------
  // The worker carries out the plan
  // ---------------------------------------------------------------------------------------

  ghost predicate Continues(s: W.Stream, s': W.Stream) {
    Inv(s') && Plan(s') == Plan(s) && s'.accepted == s.accepted
  }

  /** With nothing but silent requests in line, the postponed request's messages come next either way. */
  lemma CommitPlan(sent: seq<nat>, f: W.Request, line: seq<W.Request>)
    requires AllSilent(line)
    ensures var r := f.(isFinish := false);
            PlanOf(sent, None, [r] + line) == sent + Numbers(r.tasks) == PlanOf(sent, Some(f), line)
  {
    var r := f.(isFinish := false);
    HeadDropped(r, line);
    BodyHead([r] + line);
    LastHead(None, [r] + line);
    SilentBody(line);
    NothingMore(Numbers(r.tasks));
    NothingMore(sent);
    NothingMore(sent + Numbers(r.tasks));
  }

  lemma NothingMore(a: seq<nat>)
    ensures a + [] == a
  {
  }

  /** Finding no permit between two enqueues, the worker has nothing left to look at. */
  lemma NothingLeft(s: W.Stream, x: W.Aux)
    requires W.Inv(s, x) && Inv(s) && W.Commits(s, 0) && W.Grants(s, 0) && W.Quietly(s)
    ensures Line(s) == []
  {
    assert !s.producers[0].inFlight;
    TotalZero(s.producers, W.Flying);
    TotalAtLeast(s.producers, 0, W.Size);
  }

  lemma CommitStep(s: W.Stream, from: ThreadId, ok: bool)
    requires Inv(s) && W.Commits(s, 0)
    ensures var s', f := W.Step(s, W.Work(0, from, ok)), s.pending.value.(isFinish := false);
            && Line(s') == [f] + Line(s) && s'.pending.None? && WorkerOk(s'.worker) && s'.producers == s.producers
            && s'.sent == s.sent && s'.accepted == s.accepted && s'.gate == s.gate
  {
    var s' := W.Step(s, W.Work(0, from, ok));
    assert s.worker.batch == [];
    WholeBatch(s'.worker);
    assert Line(s) == W.QueueOf(s, 0);
    assert Line(s') == [s.pending.value.(isFinish := false)] + W.QueueOf(s, 0);
  }

  lemma CommitKeeps(s: W.Stream, from: ThreadId, ok: bool)
    requires Inv(s) && W.Commits(s, 0) && AllSilent(Line(s))
    ensures Continues(s, W.Step(s, W.Work(0, from, ok)))
  {
    var s' := W.Step(s, W.Work(0, from, ok));
    CommitStep(s, from, ok);
    CommitPlan(s.sent, s.pending.value, Line(s));
    assert Plan(s') == Plan(s);
    forall k | 0 <= k < |Line(s')| ensures WellFormed(Line(s')[k]) {
      if k > 0 { assert Line(s')[k] == Line(s)[k - 1]; }
    }
  }

  lemma TurnKeeps(s: W.Stream, count: nat, from: ThreadId, ok: bool)
    requires Inv(s) && s.worker.at == W.Take && (W.Commits(s, count) ==> AllSilent(Line(s)))
    ensures Continues(s, W.Step(s, W.Work(count, from, ok)))
  {
    if W.Commits(s, count) {
      CommitKeeps(s, from, ok);
    } else {
      TurnLine(s, count, from, ok);
    }
  }

  lemma TurnLine(s: W.Stream, count: nat, from: ThreadId, ok: bool)
    requires |s.producers| == 1 && WorkerOk(s.worker) && s.worker.at in {W.Top, W.Take} && !W.Commits(s, count)
    ensures var s' := W.Step(s, W.Work(count, from, ok));
            && Line(s') == Line(s) && WorkerOk(s'.worker) && s'.producers == s.producers && s'.gate == s.gate
            && s'.pending == s.pending && s'.sent == s.sent && s'.accepted == s.accepted
  {
    assert Line(W.Step(s, W.Work(count, from, ok))) == Line(s);
  }

  lemma RedeemLine(s: W.Stream, count: nat, from: ThreadId, ok: bool)
    requires |s.producers| == 1 && WorkerOk(s.worker) && s.worker.at == W.Fetch && W.QueueOf(s, from) != []
    ensures var s' := W.Step(s, W.Work(count, from, ok));
            && Line(s') == Line(s) && WorkerOk(s'.worker) && |s'.producers| == 1
            && s'.pending == s.pending && s'.sent == s.sent && s'.accepted == s.accepted && s'.gate == s.gate
  {
    var s' := W.Step(s, W.Work(count, from, ok));
    var q := W.QueueOf(s, 0);
    WholeBatch(s.worker);
    WholeBatch(s'.worker);
    assert Line(s') == (s.worker.batch + [q[0]]) + q[1..];
  }

  lemma RedeemKeeps(s: W.Stream, count: nat, from: ThreadId, ok: bool)
    requires Inv(s) && s.worker.at == W.Fetch && W.QueueOf(s, from) != []
    ensures Continues(s, W.Step(s, W.Work(count, from, ok)))
  {
    RedeemLine(s, count, from, ok);
  }

  lemma WholeBatch(w: W.Worker)
    requires w.pos == 0 && w.task == 0
    ensures Rest(w) == w.batch
  {
    if w.batch != [] { assert w.batch[0].tasks[0..] == w.batch[0].tasks; }
  }

  lemma AdvanceRest(w: W.Worker)
    requires w.pos < |w.batch|
    ensures Rest(W.Advance(w)) == Rest(w)[1..]
  {
    HeadDropped(Rest(w)[0], w.batch[w.pos + 1..]);
    RestFresh(W.Advance(w));
  }

  /** Of a request that was not begun everything is left. */
  lemma RestFresh(w: W.Worker)
    requires w.task == 0 && w.pos <= |w.batch|
    ensures Rest(w) == w.batch[w.pos..]
  {
    if w.pos < |w.batch| { assert w.batch[w.pos].tasks[0..] == w.batch[w.pos].tasks; }
  }

  lemma HeadDropped<T>(r: T, rest: seq<T>)
    ensures ([r] + rest)[1..] == rest
  {
  }

  /** A request is postponed, rejected or done. */
  lemma DoneKeeps(s: W.Stream, count: nat, from: ThreadId)
    requires Inv(s) && s.worker.at == W.Process
    requires W.Current(s.worker).isFinish || s.worker.task == |W.Current(s.worker).tasks|
    ensures Continues(s, W.Step(s, W.Work(count, from, true)))
  {
    var s', line := W.Step(s, W.Work(count, from, true)), Line(s);
    DoneStep(s, count, from);
    DropHead(s.sent, s.pending, line);
    forall k | 0 <= k < |Line(s')| ensures WellFormed(Line(s')[k]) { assert Line(s')[k] == line[k + 1]; }
  }

  lemma DoneStep(s: W.Stream, count: nat, from: ThreadId)
    requires |s.producers| == 1 && WorkerOk(s.worker) && s.worker.at == W.Process
    requires W.Current(s.worker).isFinish || s.worker.task == |W.Current(s.worker).tasks|
    ensures var s', line := W.Step(s, W.Work(count, from, true)), Line(s);
            && line != [] && (line[0].isFinish || line[0].tasks == [])
            && Line(s') == line[1..] && WorkerOk(s'.worker) && s'.producers == s.producers
            && s'.pending == (if s.pending.None? && line[0].isFinish then Some(line[0]) else s.pending)
            && s'.sent == s.sent && s'.accepted == s.accepted && s'.gate == s.gate
  {
    DoneEffect(s, count, from);
    RestHead(s.worker);
    AdvanceRest(s.worker);
    HeadAndTail(Rest(s.worker), W.QueueOf(s, 0));
  }

  lemma DoneEffect(s: W.Stream, count: nat, from: ThreadId)
    requires WorkerOk(s.worker) && s.worker.at == W.Process
    requires W.Current(s.worker).isFinish || s.worker.task == |W.Current(s.worker).tasks|
    ensures var w := W.Advance(s.worker);
            && WorkerOk(w)
            && W.Step(s, W.Work(count, from, true)) ==
               s.(worker := w, pending := if s.pending.None? && W.Current(s.worker).isFinish
                                          then Some(W.Current(s.worker)) else s.pending)
  {
  }

  /** The request at hand stands first, whole if it is a finish, without tasks if it is done. */
  lemma RestHead(w: W.Worker)
    requires w.pos < |w.batch| && w.task <= |w.batch[w.pos].tasks|
    ensures Rest(w) != [] && Rest(w)[0] == W.Current(w).(tasks := W.Current(w).tasks[w.task..])
    ensures w.task == 0 ==> Rest(w)[0] == W.Current(w)
    ensures w.task == |W.Current(w).tasks| ==> Rest(w)[0].tasks == []
    ensures Rest(w)[1..] == w.batch[w.pos + 1..]
  {
    assert w.batch[w.pos].tasks[0..] == w.batch[w.pos].tasks;
  }

  lemma HeadAndTail(rest: seq<W.Request>, queue: seq<W.Request>)
    requires rest != []
    ensures (rest + queue)[0] == rest[0] && (rest + queue)[1..] == rest[1..] + queue
  {
  }

  /** One task of a request is performed. */
  lemma TaskKeeps(s: W.Stream, count: nat, from: ThreadId)
    requires Inv(s) && s.worker.at == W.Process
    requires !W.Current(s.worker).isFinish && s.worker.task < |W.Current(s.worker).tasks|
    ensures Continues(s, W.Step(s, W.Work(count, from, true)))
  {
    var s', line := W.Step(s, W.Work(count, from, true)), Line(s);
    TaskStep(s, count, from);
    DoTask(s.sent, s.pending, line, Line(s'));
    forall k | 0 <= k < |Line(s')| ensures WellFormed(Line(s')[k]) { assert k > 0 ==> Line(s')[k] == line[k]; }
  }

  lemma TaskStep(s: W.Stream, count: nat, from: ThreadId)
    requires |s.producers| == 1 && WorkerOk(s.worker) && s.worker.at == W.Process
    requires !W.Current(s.worker).isFinish && s.worker.task < |W.Current(s.worker).tasks|
    ensures var s', line := W.Step(s, W.Work(count, from, true)), Line(s);
            && line != [] && !line[0].isFinish && line[0].tasks != [] && WorkerOk(s'.worker)
            && Line(s') == [line[0].(tasks := line[0].tasks[1..])] + line[1..]
            && s'.producers == s.producers && s'.pending == s.pending && s'.accepted == s.accepted
            && s'.gate == (s.gate && line[0].tasks[0] != W.OpenGate)
            && s'.sent == (if line[0].tasks[0].Message? then s.sent + [line[0].tasks[0].number] else s.sent)
  {
    var w := s.worker;
    TaskEffect(s, count, from);
    assert Line(W.Step(s, W.Work(count, from, true))) == Rest(w.(task := w.task + 1)) + W.QueueOf(s, 0) by {
      assert W.QueueOf(W.Step(s, W.Work(count, from, true)), 0) == W.QueueOf(s, 0);
    }
    TaskStepLine(w, W.QueueOf(s, 0));
  }

  lemma TaskEffect(s: W.Stream, count: nat, from: ThreadId)
    requires WorkerOk(s.worker) && s.worker.at == W.Process
    requires !W.Current(s.worker).isFinish && s.worker.task < |W.Current(s.worker).tasks|
    ensures var w, task := s.worker, W.Current(s.worker).tasks[s.worker.task];
            && WorkerOk(w.(task := w.task + 1))
            && W.Step(s, W.Work(count, from, true)) ==
               s.(worker := w.(task := w.task + 1), gate := s.gate && task != W.OpenGate,
                  sent := if task.Message? then s.sent + [task.number] else s.sent)
  {
  }

  lemma TaskStepLine(w: W.Worker, queue: seq<W.Request>)
    requires w.pos < |w.batch| && w.task < |W.Current(w).tasks|
    ensures var line := Rest(w) + queue;
            && line != [] && line[0] == W.Current(w).(tasks := W.Current(w).tasks[w.task..])
            && line[0].tasks[0] == W.Current(w).tasks[w.task]
            && Rest(w.(task := w.task + 1)) + queue == [line[0].(tasks := line[0].tasks[1..])] + line[1..]
  {
    var rest, more, tasks := Rest(w), Rest(w.(task := w.task + 1)), W.Current(w).tasks;
    RestHead(w);
    RestHead(w.(task := w.task + 1));
    HeadAndTail(rest, queue);
    assert tasks[w.task..][1..] == tasks[w.task + 1..];
    assert more[0] == rest[0].(tasks := rest[0].tasks[1..]) && more[1..] == rest[1..];
    Regrouped(more, queue);
  }

  lemma Regrouped(rest: seq<W.Request>, queue: seq<W.Request>)
    requires rest != []
    ensures rest + queue == [rest[0]] + (rest[1..] + queue)
  {
  }

  lemma WorkKeeps(s: W.Stream, count: nat, from: ThreadId)
    requires Inv(s) && W.Enabled(s, W.Work(count, from, true)) && (W.Commits(s, count) ==> AllSilent(Line(s)))
    ensures Continues(s, W.Step(s, W.Work(count, from, true)))
  {
    match s.worker.at {
      case Top => TurnLine(s, count, from, true);
      case Take => TurnKeeps(s, count, from, true);
      case Fetch => RedeemKeeps(s, count, from, true);
      case Process =>
        if W.Current(s.worker).isFinish || s.worker.task == |W.Current(s.worker).tasks| {
          DoneKeeps(s, count, from);
        } else {
          TaskKeeps(s, count, from);
        }
    }
  }

  // ---------------------------------------------------------------------------------------
  // The client's calls
  // ---------------------------------------------------------------------------------------

  function Added(n: nat, call: W.Call): seq<nat> {
    match call
    case SendImage => [n]
    case SendAndFinish => [n, n + 1]
    case FinishFrame => [n]
    case Other => []
  }

  lemma AddedNumbers(n: nat, call: W.Call)
    ensures Numbers(W.Tasks(n, call)) == Added(n, call)
  {
    var ts := W.Tasks(n, call);
    assert Numbers([W.OpenGate]) == [] by { assert [W.OpenGate][1..] == []; }
    match call {
      case SendImage => assert ts[1..] == [];
      case SendAndFinish =>
        assert ts[1..] == [W.Message(n + 1), W.OpenGate] && ts[1..][1..] == [W.OpenGate];
        assert Numbers(ts[1..]) == [n + 1];
      case FinishFrame => assert ts[1..] == [W.OpenGate];
      case Other => assert ts[1..] == [];
    }
  }

  /** A call puts its messages at the end of the plan, before the waiting finish, or nowhere. */
  lemma CallPlan(s: W.Stream, p: ThreadId, call: W.Call)
    requires Inv(s) && W.Enabled(s, W.Insert(p, call)) && !W.Refused(s, call)
    ensures var s', front, added, back := W.Step(s, W.Insert(p, call)), s.sent + Body(Line(s)),
                                          Added(s.accepted, call), Closing(s.pending, Line(s));
            && s'.accepted == s.accepted + |added|
            && AllFormed(Line(s')) && Plan(s) == front + back
            && Plan(s') == if !FinishWaits(s) then front + back + added
                           else if call == W.FinishFrame then front + back
                           else front + added + back
  {
    var s' := W.Step(s, W.Insert(p, call));
    var r := W.Request(s.next, W.Tasks(s.accepted, call), call == W.FinishFrame);
    var line := Line(s);
    assert Line(s') == line + [r];
    AddedNumbers(s.accepted, call);
    AppendPlan(s.sent, s.pending, line, r);
    forall k | 0 <= k < |Line(s')| ensures WellFormed(Line(s')[k]) { assert k < |line| ==> Line(s')[k] == line[k]; }
  }

  lemma AppendPlan(sent: seq<nat>, pending: Option<W.Request>, line: seq<W.Request>, r: W.Request)
    ensures var front, added, back := sent + Body(line), Numbers(r.tasks), Closing(pending, line);
            PlanOf(sent, pending, line + [r]) ==
            if Last(pending, line).None? then front + back + added else if r.isFinish then front + back
            else front + added + back
  {
    BodyAppend(line, [r]);
    BodyHead([r]);
    assert [r][1..] == [];
    LastAppend(pending, line, r);
    var added := if r.isFinish then [] else Numbers(r.tasks);
    assert added + [] == added;
    assert Body([r]) == added;
    Regroup(sent, Body(line), added);
    var plan, front := PlanOf(sent, pending, line + [r]), sent + Body(line);
    assert plan == (front + added) + Closing(pending, line + [r]);
    if Last(pending, line).None? {
      assert front + [] == front && front + added + [] == front + added;
    } else {
      assert front + [] == front;
    }
  }

  lemma Inserted(front: seq<nat>, added: seq<nat>, back: seq<nat>, n: nat, plan: seq<nat>)
    requires Below(front + back, n) && Below(added, n + |added|)
    requires plan == front + added + back || plan == front + back || plan == front + back + added
    ensures Below(plan, n + |added|)
  {
    forall k | 0 <= k < |plan| ensures plan[k] < n + |added| {
      if plan == front + added + back {
        if k < |front| { assert (front + back)[k] == plan[k]; }
        else if k >= |front| + |added| { assert (front + back)[k - |added|] == plan[k]; }
      } else if k < |front + back| {
        assert (front + back)[k] == plan[k];
      }
    }
  }

  /** Numbers at the end keep the order; numbers before the last one, or numbers left out, spoil it. */
  lemma EndOnly(front: seq<nat>, added: seq<nat>, back: seq<nat>, n: nat)
    requires Below(front + back, n) && added == Upto(n + |added|)[n..]
    ensures front + back + added == Upto(n + |added|) <==> front + back == Upto(n)
    ensures added != [] && back != [] ==> front + added + back != Upto(n + |added|)
    ensures added != [] ==> front + back != Upto(n + |added|)
  {
    var all, both := Upto(n + |added|), front + back;
    if both + added == all { assert both == (both + added)[..|both|] == Upto(n); }
    if both == Upto(n) { assert both + added == all; }
    assert added != [] ==> all[|all| - 1] == n + |added| - 1;
    assert both != [] ==> both[|both| - 1] < n;
    if back != [] { assert (front + added + back)[|front + added + back| - 1] == both[|both| - 1]; }
  }

  lemma CallKeeps(s: W.Stream, p: ThreadId, call: W.Call)
    requires Inv(s) && W.Enabled(s, W.Insert(p, call)) && !W.Refused(s, call)
    ensures Inv(W.Step(s, W.Insert(p, call)))
  {
    var s' := W.Step(s, W.Insert(p, call));
    CallPlan(s, p, call);
    Inserted(s.sent + Body(Line(s)), Added(s.accepted, call), Closing(s.pending, Line(s)), s.accepted, Plan(s'));
  }

  lemma ClosingFound(s: W.Stream)
    requires Inv(s) && FinishWaits(s)
    ensures Closing(s.pending, Line(s)) != []
  {
    LastFormed(s.pending, Line(s));
  }

  /** In order before the call and not late: in order after it; otherwise out of order for good. */
  lemma CallOrder(s: W.Stream, p: ThreadId, call: W.Call)
    requires Inv(s) && W.Enabled(s, W.Insert(p, call)) && !W.Refused(s, call)
    ensures var s' := W.Step(s, W.Insert(p, call));
            Plan(s') == Upto(s'.accepted) <==>
            Plan(s) == Upto(s.accepted) && !IsLate(s, W.Insert(p, call))
  {
    var s' := W.Step(s, W.Insert(p, call));
    CallPlan(s, p, call);
    if FinishWaits(s) { ClosingFound(s); }
    SpoiltOrNot(s.sent + Body(Line(s)), Closing(s.pending, Line(s)), s.accepted, call, FinishWaits(s), Plan(s'), s'.accepted);
  }

  lemma SpoiltOrNot(front: seq<nat>, back: seq<nat>, n: nat, call: W.Call, waits: bool, plan: seq<nat>, n': nat)
    requires Below(front + back, n) && n' == n + |Added(n, call)| && (waits ==> back != [])
    requires plan == if !waits then front + back + Added(n, call)
                     else if call == W.FinishFrame then front + back
                     else front + Added(n, call) + back
    ensures plan == Upto(n') <==> front + back == Upto(n) && !(waits && call != W.Other)
  {
    var added := Added(n, call);
    assert added == Upto(n + |added|)[n..];
    EndOnly(front, added, back, n);
    if call == W.Other { assert front + [] + back == front + back; }
  }

  // ---------------------------------------------------------------------------------------
  // Runs
  // ---------------------------------------------------------------------------------------

  /** One client; sending never fails; the stream is not stopped. */
  ghost predicate Good(cap: nat, steps: seq<W.Action>) {
    && W.Legal(cap, 1, steps)
    && forall k {:trigger steps[k]} :: 0 <= k < |steps| ==>
         (steps[k].Work? ==> steps[k].ok) && !steps[k].Stop? && !steps[k].Drain?
  }

  /** Some call of the run was late. */
  ghost predicate AnyLate(cap: nat, steps: seq<W.Action>) {
    steps != [] &&
    (AnyLate(cap, steps[..|steps| - 1]) || IsLate(W.Execute(cap, 1, steps[..|steps| - 1]), steps[|steps| - 1]))
  }

  lemma GoodPrefix(cap: nat, steps: seq<W.Action>)
    requires Good(cap, steps) && steps != []
    ensures Good(cap, steps[..|steps| - 1])
  {
    var before := steps[..|steps| - 1];
    forall k | 0 <= k < |before| ensures (before[k].Work? ==> before[k].ok) && !before[k].Stop? && !before[k].Drain? {
      assert before[k] == steps[k];
    }
  }

  lemma OrderStep(s: W.Stream, a: W.Action)
    requires Inv(s) && W.Enabled(s, a) && (a.Work? ==> a.ok) && !a.Stop? && !a.Drain?
    requires a.Work? && W.Commits(s, a.count) ==> AllSilent(Line(s))
    ensures Inv(W.Step(s, a))
    ensures Plan(W.Step(s, a)) == Upto(W.Step(s, a).accepted) <==> Plan(s) == Upto(s.accepted) && !IsLate(s, a)
  {
    match a {
      case Insert(p, call) =>
        if !W.Refused(s, call) { CallKeeps(s, p, call); CallOrder(s, p, call); }
      case Signal(p) => assert Line(W.Step(s, a)) == Line(s);
      case Work(count, from, ok) => WorkKeeps(s, count, from);
    }
  }

  /**
   * Exactly when the frames come out as meant: what has been sent and what is still to be sent are the
   * frame messages in the order they were accepted, if and only if no call added a frame message while
   * a finish request was waiting for its turn. The worker is supposed not to turn to a finish while an
   * enqueue is half-done; see RepairedByChance.
   */
  lemma {:induction false} InOrderIff(cap: nat, steps: seq<W.Action>)
    requires Good(cap, steps) && W.QuietCommits(cap, 1, steps)
    ensures Inv(W.Execute(cap, 1, steps))
    ensures Plan(W.Execute(cap, 1, steps)) == Upto(W.Execute(cap, 1, steps).accepted) <==> !AnyLate(cap, steps)
  {
    if steps == [] {
      assert Line(W.Init(cap, 1)) == [];
    } else {
      var before, a := steps[..|steps| - 1], steps[|steps| - 1];
      var s, x := W.Execute(cap, 1, before), W.History(cap, 1, before);
      GoodPrefix(cap, steps);
      InOrderIff(cap, before);
      W.ExecuteInv(cap, 1, before);
      assert steps[|steps| - 1] == a;
      if a.Work? && W.Commits(s, a.count) { NothingLeft(s, x); }
      OrderStep(s, a);
    }
  }

  lemma SilentInsert(s: W.Stream, p: ThreadId, call: W.Call)
    requires Inv(s) && W.Enabled(s, W.Insert(p, call)) && !W.Refused(s, call)
    requires SilentAfter(s.pending, Line(s)) && !IsLate(s, W.Insert(p, call))
    ensures var s' := W.Step(s, W.Insert(p, call)); SilentAfter(s'.pending, Line(s'))
  {
    var r := W.Request(s.next, W.Tasks(s.accepted, call), call == W.FinishFrame);
    assert Line(W.Step(s, W.Insert(p, call))) == Line(s) + [r];
    AddedNumbers(s.accepted, call);
    SilentAppend(s.pending, Line(s), r);
  }

  lemma SilentStep(s: W.Stream, x: W.Aux, a: W.Action)
    requires W.Inv(s, x) && Inv(s) && W.Enabled(s, a) && (a.Work? ==> a.ok) && !a.Stop? && !a.Drain?
    requires SilentAfter(s.pending, Line(s)) && !IsLate(s, a)
    ensures var s' := W.Step(s, a); SilentAfter(s'.pending, Line(s'))
  {
    var s' := W.Step(s, a);
    match a {
      case Insert(p, call) =>
        if !W.Refused(s, call) { SilentInsert(s, p, call); }
      case Signal(p) => assert Line(s') == Line(s);
      case Work(count, from, ok) => SilentWork(s, count, from);
    }
  }

  lemma SilentWork(s: W.Stream, count: nat, from: ThreadId)
    requires Inv(s) && W.Enabled(s, W.Work(count, from, true)) && SilentAfter(s.pending, Line(s))
    ensures var s' := W.Step(s, W.Work(count, from, true)); SilentAfter(s'.pending, Line(s'))
  {
    match s.worker.at {
      case Top => TurnLine(s, count, from, true);
      case Take =>
        if W.Commits(s, count) {
          CommitStep(s, from, true);
          SilentBody(Line(s));
          assert ([s.pending.value.(isFinish := false)] + Line(s))[1..] == Line(s);
        } else {
          TurnLine(s, count, from, true);
        }
      case Fetch => RedeemLine(s, count, from, true);
      case Process =>
        if W.Current(s.worker).isFinish || s.worker.task == |W.Current(s.worker).tasks| {
          DoneStep(s, count, from);
          SilentTail(s.pending, Line(s));
        } else {
          TaskStep(s, count, from);
          SilentTask(s.pending, Line(s), Line(W.Step(s, W.Work(count, from, true))));
        }
    }
  }

  /** Without late calls the order needs no such supposition. */
  lemma {:induction false} NotLateInOrder(cap: nat, steps: seq<W.Action>)
    requires Good(cap, steps) && !AnyLate(cap, steps)
    ensures var s := W.Execute(cap, 1, steps); Inv(s) && Plan(s) == Upto(s.accepted) && SilentAfter(s.pending, Line(s))
  {
    if steps == [] {
      assert Line(W.Init(cap, 1)) == [];
    } else {
      var before, a := steps[..|steps| - 1], steps[|steps| - 1];
      var s, x := W.Execute(cap, 1, before), W.History(cap, 1, before);
      GoodPrefix(cap, steps);
      NotLateInOrder(cap, before);
      W.ExecuteInv(cap, 1, before);
      assert steps[|steps| - 1] == a;
      OrderStep(s, a);
      SilentStep(s, x, a);
    }
  }

  /** In particular, once everything is done the wire has carried exactly the accepted messages in order, or it has not. */
  lemma SentIff(cap: nat, steps: seq<W.Action>)
    requires Good(cap, steps) && W.QuietCommits(cap, 1, steps)
    requires Line(W.Execute(cap, 1, steps)) == [] && W.Execute(cap, 1, steps).pending.None?
    ensures W.Execute(cap, 1, steps).sent == Upto(W.Execute(cap, 1, steps).accepted) <==> !AnyLate(cap, steps)
  {
    InOrderIff(cap, steps);
    var s := W.Execute(cap, 1, steps);
    assert Plan(s) == s.sent;
  }

  /** And at any time what has been sent is a prefix. */
  lemma SentPrefix(cap: nat, steps: seq<W.Action>)
    requires Good(cap, steps) && !AnyLate(cap, steps)
    ensures W.Execute(cap, 1, steps).sent <= Upto(W.Execute(cap, 1, steps).accepted)
  {
    NotLateInOrder(cap, steps);
    var s := W.Execute(cap, 1, steps);
    Front(s.sent, Body(Line(s)), Closing(s.pending, Line(s)), Upto(s.accepted));
  }

  lemma Front(a: seq<nat>, b: seq<nat>, c: seq<nat>, all: seq<nat>)
    requires a + b + c == all
    ensures a <= all
  {
  }

  // ---------------------------------------------------------------------------------------
  // The gate
  // ---------------------------------------------------------------------------------------

  /** Request r has still to open the gate: its promise, the caller's future, is not settled. */
  predicate Opens(r: W.Request) {
    W.OpenGate in r.tasks
  }

  ghost predicate Outstanding(s: W.Stream) {
    s.pending.Some? || exists k :: 0 <= k < |Line(s)| && Opens(Line(s)[k])
  }

  /** The client asks for a finish only when the futures of all its earlier finishing calls are ready. */
  ghost predicate Careful(cap: nat, steps: seq<W.Action>) {
    steps == [] ||
    (&& Careful(cap, steps[..|steps| - 1])
     && (steps[|steps| - 1].Insert? && steps[|steps| - 1].call == W.FinishFrame ==>
           !Outstanding(W.Execute(cap, 1, steps[..|steps| - 1]))))
  }

  /** While a finish request waits, the gate is closed and nothing that is run before it opens it. */
  ghost predicate Guarded(gate: bool, pending: Option<W.Request>, line: seq<W.Request>) {
    Last(pending, line).Some? ==> gate && NoOpener(line)
  }

  ghost predicate NoOpener(line: seq<W.Request>) {
    forall k {:trigger line[k]} :: 0 <= k < |line| && !line[k].isFinish ==> !Opens(line[k])
  }

  lemma {:induction false} LastInLine(line: seq<W.Request>)
    requires Last(None, line).Some?
    ensures exists k :: 0 <= k < |line| && line[k].isFinish
  {
    if !line[0].isFinish {
      LastInLine(line[1..]);
      var k :| 0 <= k < |line[1..]| && line[1..][k].isFinish;
      assert line[k + 1].isFinish;
    } else {
      assert line[0].isFinish;
    }
  }

  lemma WaitingIsOutstanding(s: W.Stream)
    requires Inv(s) && FinishWaits(s)
    ensures Outstanding(s)
  {
    if s.pending.None? {
      LastInLine(Line(s));
      var k :| 0 <= k < |Line(s)| && Line(s)[k].isFinish;
      assert WellFormed(Line(s)[k]) && Line(s)[k].tasks[1] == W.OpenGate;
      assert Opens(Line(s)[k]);
    }
  }

  lemma NotOutstanding(s: W.Stream)
    requires Inv(s) && !Outstanding(s)
    ensures !FinishWaits(s) && NoOpener(Line(s))
  {
    if FinishWaits(s) { WaitingIsOutstanding(s); }
  }

  lemma CallGuarded(s: W.Stream, p: ThreadId, call: W.Call)
    requires Inv(s) && W.Enabled(s, W.Insert(p, call)) && !W.Refused(s, call)
    requires Guarded(s.gate, s.pending, Line(s)) && (call == W.FinishFrame ==> !Outstanding(s))
    ensures var s' := W.Step(s, W.Insert(p, call)); Guarded(s'.gate, s'.pending, Line(s'))
    ensures !IsLate(s, W.Insert(p, call))
  {
    var s' := W.Step(s, W.Insert(p, call));
    var r := W.Request(s.next, W.Tasks(s.accepted, call), call == W.FinishFrame);
    assert Line(s') == Line(s) + [r];
    LastAppend(s.pending, Line(s), r);
    if call == W.FinishFrame { NotOutstanding(s); }
  }

  lemma WorkGuarded(s: W.Stream, count: nat, from: ThreadId)
    requires Inv(s) && W.Enabled(s, W.Work(count, from, true)) && (W.Commits(s, count) ==> AllSilent(Line(s)))
    requires Guarded(s.gate, s.pending, Line(s))
    ensures var s' := W.Step(s, W.Work(count, from, true)); Guarded(s'.gate, s'.pending, Line(s'))
  {
    match s.worker.at {
      case Top => TurnLine(s, count, from, true);
      case Take =>
        if W.Commits(s, count) {
          CommitStep(s, from, true);
          SilentBody(Line(s));
          assert ([s.pending.value.(isFinish := false)] + Line(s))[1..] == Line(s);
        } else {
          TurnLine(s, count, from, true);
        }
      case Fetch => RedeemLine(s, count, from, true);
      case Process =>
        if W.Current(s.worker).isFinish || s.worker.task == |W.Current(s.worker).tasks| {
          DoneGuarded(s, count, from);
        } else {
          TaskGuarded(s, count, from);
        }
    }
  }

  lemma DoneGuarded(s: W.Stream, count: nat, from: ThreadId)
    requires Inv(s) && s.worker.at == W.Process && Guarded(s.gate, s.pending, Line(s))
    requires W.Current(s.worker).isFinish || s.worker.task == |W.Current(s.worker).tasks|
    ensures var s' := W.Step(s, W.Work(count, from, true)); Guarded(s'.gate, s'.pending, Line(s'))
  {
    var s', line := W.Step(s, W.Work(count, from, true)), Line(s);
    DoneStep(s, count, from);
    LastHead(s.pending, line);
    forall k | 0 <= k < |Line(s')| && !Line(s')[k].isFinish && NoOpener(line) ensures !Opens(Line(s')[k]) {
      assert Line(s')[k] == line[k + 1];
    }
  }

  lemma TaskGuarded(s: W.Stream, count: nat, from: ThreadId)
    requires Inv(s) && s.worker.at == W.Process && Guarded(s.gate, s.pending, Line(s))
    requires !W.Current(s.worker).isFinish && s.worker.task < |W.Current(s.worker).tasks|
    ensures var s' := W.Step(s, W.Work(count, from, true)); Guarded(s'.gate, s'.pending, Line(s'))
  {
    var s', line := W.Step(s, W.Work(count, from, true)), Line(s);
    TaskStep(s, count, from);
    SameLast(s.pending, line, Line(s'));
    if Last(s.pending, line).Some? {
      assert !Opens(line[0]);
      NoOpenerKept(line, Line(s'));
    }
  }

  lemma NoOpenerKept(line: seq<W.Request>, line': seq<W.Request>)
    requires line != [] && !line[0].isFinish && line[0].tasks != [] && NoOpener(line)
    requires line' == [line[0].(tasks := line[0].tasks[1..])] + line[1..]
    ensures NoOpener(line')
  {
    forall k | 0 <= k < |line'| && !line'[k].isFinish ensures !Opens(line'[k]) {
      if k > 0 { assert line'[k] == line[k]; } else { assert !Opens(line[0]); }
    }
  }

  /**
   * The gate does its work for a client that waits for its finishes: then no call is ever late, so
   * FINISH_FRAME separates exactly the segments of consecutive frames.
   */
  lemma CarefulIsInOrder(cap: nat, steps: seq<W.Action>)
    requires Good(cap, steps) && Careful(cap, steps)
    ensures !AnyLate(cap, steps)
    ensures W.Execute(cap, 1, steps).sent <= Upto(W.Execute(cap, 1, steps).accepted)
  {
    CarefulNeverLate(cap, steps);
    SentPrefix(cap, steps);
  }

  lemma {:induction false} CarefulNeverLate(cap: nat, steps: seq<W.Action>)
    requires Good(cap, steps) && Careful(cap, steps)
    ensures !AnyLate(cap, steps)
    ensures var s := W.Execute(cap, 1, steps); Guarded(s.gate, s.pending, Line(s))
  {
    if steps == [] {
      assert Line(W.Init(cap, 1)) == [];
    } else {
      var before, a := steps[..|steps| - 1], steps[|steps| - 1];
      GoodPrefix(cap, steps);
      CarefulNeverLate(cap, before);
      NotLateInOrder(cap, before);
      W.ExecuteInv(cap, 1, before);
      assert steps[|steps| - 1] == a;
      GuardedStep(W.Execute(cap, 1, before), W.History(cap, 1, before), a);
    }
  }

  lemma GuardedStep(s: W.Stream, x: W.Aux, a: W.Action)
    requires W.Inv(s, x) && Inv(s) && W.Enabled(s, a) && (a.Work? ==> a.ok) && !a.Stop? && !a.Drain?
    requires SilentAfter(s.pending, Line(s))
    requires Guarded(s.gate, s.pending, Line(s))
    requires a.Insert? && a.call == W.FinishFrame ==> !Outstanding(s)
    ensures !IsLate(s, a)
    ensures var s' := W.Step(s, a); Guarded(s'.gate, s'.pending, Line(s'))
  {
    match a {
      case Insert(p, call) => if !W.Refused(s, call) { CallGuarded(s, p, call); }
      case Signal(p) => assert Line(W.Step(s, a)) == Line(s);
      case Work(count, from, ok) => WorkGuarded(s, count, from);
    }
  }

  // ---------------------------------------------------------------------------------------
  // A client that does not wait
  // ---------------------------------------------------------------------------------------

  /** Some run of that kind leads to s, with or without a late call; quiet: as InOrderIff supposes. */
  ghost predicate Happens(cap: nat, s: W.Stream, late: bool, quiet: bool) {
    exists steps :: Good(cap, steps) && W.Execute(cap, 1, steps) == s && AnyLate(cap, steps) == late
                    && (quiet ==> W.QuietCommits(cap, 1, steps))
  }

  lemma Go(cap: nat, a: W.Action, s: W.Stream, s': W.Stream, late: bool, quiet: bool)
    requires Happens(cap, s, late, quiet) && W.Enabled(s, a) && W.Step(s, a) == s'
    requires !a.Stop? && !a.Drain? && (a.Work? ==> a.ok) && (quiet && a.Work? && W.Commits(s, a.count) ==> W.Quietly(s))
    ensures Happens(cap, s', late || IsLate(s, a), quiet)
  {
    var steps :| Good(cap, steps) && W.Execute(cap, 1, steps) == s && AnyLate(cap, steps) == late
                 && (quiet ==> W.QuietCommits(cap, 1, steps));
    var more := steps + [a];
    assert more[..|more| - 1] == steps;
    forall k | 0 <= k < |more| ensures (more[k].Work? ==> more[k].ok) && !more[k].Stop? && !more[k].Drain? {
      if k < |steps| { assert more[k] == steps[k]; }
    }
    assert Good(cap, more);
  }

  const BOTH: W.Request := W.Request(0, [W.Message(0), W.Message(1), W.OpenGate], false)
  const CLOSE: W.Request := W.Request(1, [W.Message(2), W.OpenGate], true)

  /** A large image with finish is queued, and finishFrame is called at once. */
  function Hasty(): W.Stream {
    W.Stream(1, [W.Producer([BOTH, CLOSE], false)], 2, W.Worker(W.Top, 0, [], 0, 0), None, true, true, 2, 3, [])
  }

  function Queued(): W.Stream {
    W.Init(1, 1).(producers := [W.Producer([BOTH], false)], next := 1, accepted := 2, permits := 1)
  }

  lemma QueuedHappens()
    ensures Happens(1, Queued(), false, true)
  {
    var s0 := W.Init(1, 1);
    var s1 := s0.(producers := [W.Producer([BOTH], true)], next := 1, accepted := 2);
    assert Happens(1, s0, false, true) by { assert Good(1, []); }
    assert s0.producers[0].queue + [BOTH] == [BOTH];
    assert W.Step(s0, W.Insert(0, W.SendAndFinish)).producers == s1.producers;
    Go(1, W.Insert(0, W.SendAndFinish), s0, s1, false, true);
    assert W.Step(s1, W.Signal(0)).producers == Queued().producers;
    Go(1, W.Signal(0), s1, Queued(), false, true);
  }

  lemma HastyHappens()
    ensures Happens(1, Hasty(), false, true)
  {
    var s2 := Queued();
    var s3 := s2.(producers := [W.Producer([BOTH, CLOSE], true)], gate := true, next := 2, accepted := 3);
    QueuedHappens();
    assert [BOTH] + [CLOSE] == [BOTH, CLOSE];
    assert W.Step(s2, W.Insert(0, W.FinishFrame)).producers == s3.producers;
    NothingWaits(s2);
    Go(1, W.Insert(0, W.FinishFrame), s2, s3, false, true);
    assert W.Step(s3, W.Signal(0)).producers == Hasty().producers;
    Go(1, W.Signal(0), s3, Hasty(), false, true);
  }

  lemma NothingWaits(s: W.Stream)
    requires s.worker == W.Worker(W.Top, 0, [], 0, 0) && s.pending.None? && W.QueueOf(s, 0) == [BOTH]
    ensures !FinishWaits(s)
  {
    assert Line(s) == [BOTH];
    LastHead(None, [BOTH]);
    assert [BOTH][1..] == [];
  }

  /** The first request opens the gate that the second call has closed. */
  function Opened(): W.Stream {
    Hasty().(producers := [W.Producer([CLOSE], false)], permits := 1, gate := false, sent := [0, 1],
             worker := W.Worker(W.Process, 0, [BOTH], 0, 3))
  }

  function Fetched(): W.Stream {
    Hasty().(producers := [W.Producer([CLOSE], false)], permits := 1, worker := W.Worker(W.Process, 0, [BOTH], 0, 0))
  }

  lemma FetchingHappens()
    ensures Happens(1, Hasty().(permits := 1, worker := W.Worker(W.Fetch, 1, [], 0, 0)), false, true)
  {
    var s5 := Hasty().(worker := W.Worker(W.Take, 0, [], 0, 0));
    HastyHappens();
    Go(1, W.Work(0, 0, true), Hasty(), s5, false, true);
    Go(1, W.Work(1, 0, true), s5, Hasty().(permits := 1, worker := W.Worker(W.Fetch, 1, [], 0, 0)), false, true);
  }

  lemma FetchedHappens()
    ensures Happens(1, Fetched(), false, true)
  {
    var go, s6 := W.Work(0, 0, true), Hasty().(permits := 1, worker := W.Worker(W.Fetch, 1, [], 0, 0));
    FetchingHappens();
    assert [BOTH, CLOSE][1..] == [CLOSE];
    assert W.Step(s6, go).producers == Fetched().producers;
    Go(1, go, s6, Fetched(), false, true);
  }

  lemma OpenedHappens()
    ensures Happens(1, Opened(), false, true)
  {
    var go := W.Work(0, 0, true);
    var s8 := Fetched().(worker := W.Worker(W.Process, 0, [BOTH], 0, 1), sent := [0]);
    var s9 := Fetched().(worker := W.Worker(W.Process, 0, [BOTH], 0, 2), sent := [0, 1]);
    FetchedHappens();
    assert [] + [0] == [0] && [0] + [1] == [0, 1];
    Go(1, go, Fetched(), s8, false, true);
    Go(1, go, s8, s9, false, true);
    Go(1, go, s9, Opened(), false, true);
  }

  /** So the next image is accepted while the finish still waits, and will leave before it. */
  lemma HastyFinishMisplaces() returns (s: W.Stream)
    ensures Happens(1, s, true, true) && Plan(s) != Upto(s.accepted)
  {
    OpenedHappens();
    s := W.Step(Opened(), W.Insert(0, W.SendImage));
    var line := Line(Opened());
    assert line[1..] == [CLOSE];
    assert Last(None, [CLOSE]) == Some(CLOSE) by { assert [CLOSE][1..] == []; }
    assert IsLate(Opened(), W.Insert(0, W.SendImage));
    Go(1, W.Insert(0, W.SendImage), Opened(), s, false, true);
    LateMisplaces(1, s);
  }

  lemma LateMisplaces(cap: nat, s: W.Stream)
    requires Happens(cap, s, true, true)
    ensures Plan(s) != Upto(s.accepted)
  {
    var steps :| Good(cap, steps) && W.Execute(cap, 1, steps) == s && AnyLate(cap, steps) == true
                 && W.QuietCommits(cap, 1, steps);
    InOrderIff(cap, steps);
  }

  const FIRST: W.Request := W.Request(0, [W.Message(0), W.OpenGate], true)
  const SECOND: W.Request := W.Request(1, [W.Message(1), W.OpenGate], true)

  /** A finish is postponed. */
  function Postponed(): W.Stream {
    W.Stream(1, [W.Producer([], false)], 0, W.Worker(W.Take, 0, [], 0, 0), Some(FIRST), true, true, 1, 1, [])
  }

  /** A finish is queued. */
  function Asked(): W.Stream {
    W.Stream(1, [W.Producer([FIRST], false)], 1, W.Worker(W.Top, 0, [], 0, 0), None, true, true, 1, 1, [])
  }

  /** Its call has not signalled it yet. */
  function Asking(): W.Stream {
    Asked().(producers := [W.Producer([FIRST], true)], permits := 0)
  }

  lemma AskingHappens()
    ensures Happens(1, Asking(), false, false)
  {
    var s0 := W.Init(1, 1);
    assert Happens(1, s0, false, false) by { assert Good(1, []); }
    assert [] + [FIRST] == [FIRST];
    assert W.Step(s0, W.Insert(0, W.FinishFrame)).producers == Asking().producers;
    assert Line(s0) == [];
    Go(1, W.Insert(0, W.FinishFrame), s0, Asking(), false, false);
  }

  lemma AskedHappens()
    ensures Happens(1, Asked(), false, false)
  {
    AskingHappens();
    assert W.Step(Asking(), W.Signal(0)).producers == Asked().producers;
    Go(1, W.Signal(0), Asking(), Asked(), false, false);
  }

  function InHand(): W.Stream {
    Asked().(producers := [W.Producer([], false)], permits := 0, worker := W.Worker(W.Process, 0, [FIRST], 0, 0))
  }

  lemma InHandHappens()
    ensures Happens(1, InHand(), false, false)
  {
    var go := W.Work(0, 0, true);
    PaidHappens();
    assert [FIRST][1..] == [] && [] + [FIRST] == [FIRST];
    assert W.Step(Paid(), go).producers == InHand().producers && W.Step(Paid(), go).worker == InHand().worker;
    Go(1, go, Paid(), InHand(), false, false);
  }

  /** The worker has a permit for it. */
  function Paid(): W.Stream {
    Asked().(permits := 0, worker := W.Worker(W.Fetch, 1, [], 0, 0))
  }

  lemma PaidHappens()
    ensures Happens(1, Paid(), false, false)
  {
    var s3 := Asked().(worker := W.Worker(W.Take, 0, [], 0, 0));
    AskedHappens();
    Go(1, W.Work(0, 0, true), Asked(), s3, false, false);
    Go(1, W.Work(1, 0, true), s3, Paid(), false, false);
  }

  lemma PostponedHappens()
    ensures Happens(1, Postponed(), false, false)
  {
    var go, s6 := W.Work(0, 0, true), Postponed().(worker := W.Worker(W.Top, 0, [], 0, 0));
    InHandHappens();
    Go(1, go, InHand(), s6, false, false);
    Go(1, go, s6, Postponed(), false, false);
  }

  /**
   * Why InOrderIff supposes that: a second finish is asked for too early, but the worker turns to the
   * first one before the second is signalled, and the order comes out right by chance.
   */
  lemma RepairedByChance() returns (s: W.Stream)
    ensures Happens(1, s, true, false) && Plan(s) == Upto(s.accepted)
  {
    var s1 := Postponed().(producers := [W.Producer([SECOND], true)], next := 2, accepted := 2);
    PostponedHappens();
    assert [] + [SECOND] == [SECOND];
    assert W.Step(Postponed(), W.Insert(0, W.FinishFrame)).producers == s1.producers;
    Go(1, W.Insert(0, W.FinishFrame), Postponed(), s1, false, false);
    var f := FIRST.(isFinish := false);
    s := s1.(pending := None, worker := W.Worker(W.Process, 0, [f], 0, 0));
    Go(1, W.Work(0, 0, true), s1, s, true, false);
    TwoFinishes(s, f);
  }

  lemma TwoFinishes(s: W.Stream, f: W.Request)
    requires f == FIRST.(isFinish := false) && s.sent == [] && s.pending.None? && s.accepted == 2
    requires s.worker == W.Worker(W.Process, 0, [f], 0, 0) && W.QueueOf(s, 0) == [SECOND]
    ensures Plan(s) == Upto(s.accepted)
  {
    WholeBatch(s.worker);
    var line := [f, SECOND];
    assert Line(s) == line && line[1..] == [SECOND] && [SECOND][1..] == [];
    BodyHead(line);
    BodyHead([SECOND]);
    AddedNumbers(0, W.FinishFrame);
    AddedNumbers(1, W.FinishFrame);
    assert Last(None, line) == Last(None, [SECOND]) == Some(SECOND);
    assert [] + ([0] + []) + [1] == [0, 1] == Upto(2);
  }
}
