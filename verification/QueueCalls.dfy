/**
 * What calls of an implicit producer get done when they are left alone (deflect/moodycamel/concurrentqueue.h,
 * ImplicitProducer::dequeue and dequeue_bulk): module ImplicitQueue shows that nothing goes wrong in
 * any run; here it is shown that something happens.
 */
module QueueCalls {
  import opened Common
  import T = Tickets
  import opened ImplicitQueue
  import QueueEnqueue

  // ---------------------------------------------------------------------------------------
  // Operations of one consumer
  // ---------------------------------------------------------------------------------------

  datatype State = State(q: Queue, x: Aux)

  function Go(p: State, a: Action): State {
    State(Step(p.q, a), AuxStep(p.q, p.x, a))
  }

  /** Whatever is done next, the invariant holds after it. */
  ghost predicate Sound(p: State) {
    forall a: Action {:trigger Go(p, a)} :: Near(p.q, a) ==> Inv(Go(p, a).q, Go(p, a).x)
  }

  lemma InvSound(p: State)
    requires Inv(p.q, p.x)
    ensures Sound(p)
  {
    forall a: Action | Near(p.q, a) ensures Inv(Go(p, a).q, Go(p, a).x) { StepInv(p.q, p.x, a); }
  }

  lemma SoundInv(p: State)
    requires Sound(p)
    ensures Inv(p.q, p.x)
  {
    if p.q.producer.at == Ready {
      assert Go(p, Produce(0)) == p;
    } else {
      assert Go(p, Enqueue(0)) == p;
    }
  }

  lemma NoneSound()
    ensures Sound(State(Init({}), Aux([], [], map[], {}, [], map[], map[])))
  {
    InvSound(State(Init({}), Aux([], [], map[], {}, [], map[], map[])));
  }

  type Good = p: State | Sound(p)
    ghost witness (NoneSound(); State(Init({}), Aux([], [], map[], {}, [], map[], map[])))

  lemma Next(p: Good, a: Action) returns (p': Good)
    requires Near(p.q, a)
    ensures p' == Go(p, a)
  {
    InvSound(Go(p, a));
    p' := Go(p, a);
  }

  function Iterate(f: State -> State, p: State, n: nat): State
    decreases n
  {
    if n == 0 then p else Iterate(f, f(p), n - 1)
  }

  function Runner(t: ThreadId): State -> State {
    (p: State) => Go(p, Run(t))
  }

  /** f is an operation of t. */
  ghost predicate Runs(f: State -> State, t: ThreadId) {
    forall p: State {:trigger Go(p, Run(t))} :: f(p) == Go(p, Run(t))
  }

  /** k operations of t and of nobody else. */
  function Alone(p: State, t: ThreadId, k: nat): State {
    Iterate(Runner(t), p, k)
  }

  /** After n times f, p has become p'. */
  ghost predicate Leads(f: State -> State, p: State, n: nat, p': State) {
    forall k: nat {:trigger Iterate(f, p', k)} :: Iterate(f, p, n + k) == Iterate(f, p', k)
  }

  lemma LeadsTo(f: State -> State, p: State, n: nat, p': State)
    requires Leads(f, p, n, p')
    ensures Iterate(f, p, n) == p'
  {
    assert Iterate(f, p', 0) == p';
    assert n + 0 == n;
  }

  lemma LeadsOn(f: State -> State, p: State, m: nat, p1: State, n: nat, p2: State)
    requires Leads(f, p, m, p1) && Leads(f, p1, n, p2)
    ensures Leads(f, p, m + n, p2)
  {
    forall k: nat ensures Iterate(f, p, m + n + k) == Iterate(f, p2, k) {
      assert Iterate(f, p2, k) == Iterate(f, p1, n + k) == Iterate(f, p, m + (n + k));
      assert m + (n + k) == m + n + k;
    }
  }

  lemma LeadsStep(f: State -> State, p: State)
    ensures Leads(f, p, 1, f(p))
  {
  }

  // ---------------------------------------------------------------------------------------
  // Taking out what has been claimed
  // ---------------------------------------------------------------------------------------

  /** The operations that a consumer which has claimed its indices still needs at most. */
  function Effort(r: Reader): nat {
    var left := if r.pos <= r.stop then r.stop - r.pos else 0;
    match r.at
    case Waiting => 0
    case Move => 8 * left + 1
    case Load => 8 * left + 2
    case Lookup => 8 * left + 3
    case Release => 8 * left + 4
    case Clear => 8 * left + 5
    case Count => 8 * left + 6
  }

  ghost predicate Busy(p: State, t: ThreadId) {
    t in p.q.readers && p.q.readers[t].at != Waiting
  }

  /** t gets nearer to the end, where it is idle again. */
  ghost predicate Nearer(s: Queue, t: ThreadId, s': Queue)
    requires t in s.readers
  {
    && t in s'.readers && t in s'.ix.consumers && Effort(s'.readers[t]) < Effort(s.readers[t])
    && (s'.readers[t].at == Waiting ==> s'.ix.consumers[t].at == T.Idle)
  }

  /** No index is claimed and no element is published. */
  ghost predicate Kept(p: State, p': State) {
    p'.q.ix.head == p.q.ix.head && p'.x.claimant == p.x.claimant && p'.x.produced == p.x.produced
  }

  lemma ReadMoves(s: Queue, x: Aux, t: ThreadId)
    requires t in s.readers && s.readers[t].at != Waiting && t in s.ix.consumers && ReaderOk(s, x, t)
    ensures Nearer(s, t, Read(s, t)) && Read(s, t).ix.head == s.ix.head
  {
  }

  lemma AuxKeeps(s: Queue, x: Aux, t: ThreadId)
    requires t in s.readers && s.readers[t].at != Waiting
    ensures var x' := AuxStep(s, x, Run(t)); x'.claimant == x.claimant && x'.produced == x.produced
  {
  }

  lemma Reads(s: Queue, t: ThreadId)
    requires t in s.readers && s.readers[t].at != Waiting && t in s.ix.consumers && s.ix.consumers[t].at == T.Claimed
    ensures Step(s, Run(t)) == Read(s, t)
  {
  }

  lemma BusyOk(p: Good, t: ThreadId)
    requires Busy(p, t)
    ensures t in p.q.ix.consumers && ReaderOk(p.q, p.x, t) && p.q.ix.consumers[t].at == T.Claimed
  {
    SoundInv(p);
    assert ReaderOk(p.q, p.x, t);
  }

  /** Each of its operations brings a consumer that has claimed indices nearer to the end. */
  lemma RunHelps(f: State -> State, p: Good, t: ThreadId) returns (p': Good)
    requires Runs(f, t) && Busy(p, t)
    ensures Leads(f, p, 1, p') && Nearer(p.q, t, p'.q) && Kept(p, p')
  {
    p' := Next(p, Run(t));
    BusyOk(p, t);
    Reads(p.q, t);
    ReadMoves(p.q, p.x, t);
    AuxKeeps(p.q, p.x, t);
    LeadsStep(f, p);
  }

  /** t is idle. */
  ghost predicate Rests(p: State, t: ThreadId) {
    t in p.q.readers && p.q.readers[t].at == Waiting && t in p.q.ix.consumers && p.q.ix.consumers[t].at == T.Idle
  }

  lemma {:induction false} EndsFrom(f: State -> State, p: Good, t: ThreadId) returns (k: nat, p': Good)
    requires Runs(f, t) && Busy(p, t)
    ensures Leads(f, p, k, p') && Rests(p', t) && Kept(p, p')
    decreases Effort(p.q.readers[t])
  {
    var p1 := RunHelps(f, p, t);
    if p1.q.readers[t].at == Waiting {
      k, p' := 1, p1;
    } else {
      var rest, p2 := EndsFrom(f, p1, t);
      k, p' := 1 + rest, p2;
      LeadsOn(f, p, 1, p1, rest, p2);
    }
  }

  /** The n elements from index first on have been taken out as they were published. */
  ghost predicate Taken(x: Aux, produced: seq<Element>, first: nat, n: nat) {
    && first + n <= |produced| && x.produced == produced
    && forall i {:trigger x.delivered[i]} :: first <= i < first + n ==> i in x.delivered && x.delivered[i] == produced[i]
  }

  /** Whatever the others have done so far, a consumer that has claimed indices takes out all of them, and is idle again. */
  lemma TakesAll(f: State -> State, p: Good, t: ThreadId) returns (k: nat, p': Good)
    requires Runs(f, t) && Busy(p, t)
    ensures var r := p.q.readers[t];
            && Leads(f, p, k, p') && Rests(p', t) && p'.q.ix.head == p.q.ix.head
            && r.pos <= r.stop && Taken(p'.x, p.x.produced, r.pos, r.stop - r.pos)
  {
    k, p' := EndsFrom(f, p, t);
    AllOut(p, p', t);
  }

  lemma AllOut(p: Good, p': Good, t: ThreadId)
    requires Busy(p, t) && Rests(p', t) && Kept(p, p')
    ensures var r := p.q.readers[t]; r.pos <= r.stop && Taken(p'.x, p.x.produced, r.pos, r.stop - r.pos)
  {
    SoundInv(p);
    BusyOk(p, t);
    SoundInv(p');
    var r := p.q.readers[t];
    forall i | r.pos <= i < r.stop ensures i in p'.x.delivered && p'.x.delivered[i] == p.x.produced[i] {
      assert ClaimOk(p'.q, p'.x, i) && SlotOk(p'.q, p'.x, i);
    }
  }

  // ---------------------------------------------------------------------------------------
  // Claiming
  // ---------------------------------------------------------------------------------------

  /** t is still drawing tickets. */
  ghost predicate Stands(p: State, t: ThreadId) {
    t in p.q.readers && p.q.readers[t].at == Waiting && t in p.q.ix.consumers
  }

  /** While it draws tickets, a consumer does what module Tickets says, and once it has claimed, it starts there. */
  ghost predicate Draws(s: Queue, t: ThreadId) {
    && t in s.readers && t in s.ix.consumers
    && (if s.ix.consumers[t].at == T.Claimed
        then s.readers[t].at != Waiting && s.readers[t].pos == s.ix.consumers[t].first
             && s.readers[t].stop == s.ix.consumers[t].first + s.ix.consumers[t].actual
        else s.readers[t].at == Waiting)
  }

  lemma DrawMoves(p: State, t: ThreadId)
    requires Stands(p, t) && p.q.ix.consumers[t].at != T.Idle
    ensures var p' := Go(p, Run(t));
            Draws(p'.q, t) && p'.q.ix == T.Step(p.q.ix, T.Continue(t)) && p'.x.produced == p.x.produced
  {
  }

  /** An operation of t that is not the last of its call, and compares only near counters, turns ix into ix'. */
  ghost predicate Leg(ix: T.Indices, t: ThreadId, ix': T.Indices) {
    && t in ix.consumers && ix.consumers[t].at !in {T.Idle, T.Claimed} && T.Near(ix, T.Continue(t))
    && forall a: T.Action {:trigger T.Step(ix, a)} :: a == T.Continue(t) ==> T.Step(ix, a) == ix'
  }

  lemma Follows(f: State -> State, p: Good, t: ThreadId, ix': T.Indices) returns (p': Good)
    requires Runs(f, t) && Stands(p, t) && Leg(p.q.ix, t, ix')
    ensures Leads(f, p, 1, p') && Draws(p'.q, t) && p'.q.ix == ix' && p'.x.produced == p.x.produced
  {
    p' := Next(p, Run(t));
    DrawMoves(p, t);
    LeadsStep(f, p);
  }

  /** The counters that a lone consumer goes through, operation by operation, until it has claimed or found nothing. */
  ghost predicate Course(c: seq<T.Indices>, t: ThreadId) {
    |c| > 0 && t in c[0].consumers
    && (|c| > 1 ==> c[0].consumers[t].at != T.Claimed && Leg(c[0], t, c[1]) && Course(c[1..], t))
  }

  lemma {:induction false} FollowsAll(f: State -> State, p: Good, t: ThreadId, c: seq<T.Indices>) returns (p': Good)
    requires Runs(f, t) && Draws(p.q, t) && Course(c, t) && c[0] == p.q.ix
    ensures Leads(f, p, |c| - 1, p') && Draws(p'.q, t) && p'.q.ix == c[|c| - 1] && p'.x.produced == p.x.produced
    decreases |c|
  {
    if |c| == 1 {
      p' := p;
    } else {
      var p1 := Follows(f, p, t, c[1]);
      p' := FollowsAll(f, p1, t, c[1..]);
      LeadsOn(f, p, 1, p1, |c| - 2, p');
    }
  }

  // ---------------------------------------------------------------------------------------
  // A whole call
  // ---------------------------------------------------------------------------------------

  ghost predicate AllIdle(s: Queue) {
    forall u | u in s.ix.consumers :: s.ix.consumers[u].at == T.Idle
  }

  function Lesser(a: nat, b: nat): nat {
    if a < b then a else b
  }

  /** At the end of its course the lone consumer has claimed what it may of what there is, or found nothing. */
  ghost predicate Claims(s: T.Indices, done: T.Indices, t: ThreadId, max: nat) {
    && s.head <= s.tail && t in done.consumers
    && (if s.head == s.tail then done.consumers[t].at == T.Idle && done.head == s.head else
        var n := Lesser(max, s.tail - s.head);
        && done.consumers[t].at == T.Claimed && done.consumers[t].first == s.head
        && done.consumers[t].actual == n && done.head == s.head + n)
  }

  lemma Longer(ix: T.Indices, t: ThreadId, c: seq<T.Indices>) returns (c': seq<T.Indices>)
    requires |c| > 0 && Course(c, t) && Leg(ix, t, c[0]) && ix.consumers[t].at != T.Claimed
    ensures Course(c', t) && c'[0] == ix && c'[|c'| - 1] == c[|c| - 1]
  {
    c' := [ix] + c;
    assert c'[1..] == c;
  }

  /** Three operations that come before c. */
  lemma ThreeBefore(ix: T.Indices, t: ThreadId, c: seq<T.Indices>) returns (c': seq<T.Indices>)
    requires |c| > 0 && Course(c, t) && c[0] == T.Next3(ix, t)
    requires t in ix.consumers
    requires || ix.consumers[t].at == T.LoadTail
             || (ix.consumers[t].at == T.Draw && c[0].consumers[t].at == T.Claimed
                 && T.Close(ix.optimistic - ix.consumers[t].overcommit, ix.tail))
    ensures Course(c', t) && c'[0] == ix && c'[|c'| - 1] == c[|c| - 1]
  {
    var a := T.Step(ix, T.Continue(t));
    var b := T.Step(a, T.Continue(t));
    c' := Longer(b, t, c);
    c' := Longer(a, t, c');
    c' := Longer(ix, t, c');
  }

  lemma CourseOf(ix: T.Indices, fates: seq<T.Ticket>, t: ThreadId, bulk: bool, max: nat) returns (c: seq<T.Indices>)
    requires T.Inv(ix, fates) && T.Enabled(ix, T.Call(t, bulk, max)) && ix.tail - ix.head < T.HALF
    requires forall u | u in ix.consumers :: ix.consumers[u].at == T.Idle
    ensures Course(c, t) && c[0] == T.Step(ix, T.Call(t, bulk, max)) && Claims(ix, c[|c| - 1], t, max)
  {
    var ix0 := T.Step(ix, T.Call(t, bulk, max));
    T.AllFinal(ix, fates, |fates|);
    T.HeadBelowTail(ix, fates);
    T.LoneDequeue(ix, fates, t, bulk, max);
    T.LoneTest(ix, t, bulk, max);
    c := CourseFrom(ix, ix0, T.Next3(ix0, t), t, max);
  }

  lemma CourseFrom(ix: T.Indices, ix0: T.Indices, ix3: T.Indices, t: ThreadId, max: nat) returns (c: seq<T.Indices>)
    requires t in ix0.consumers && ix0.consumers[t].at == T.LoadTail && ix3 == T.Next3(ix0, t) && t in ix3.consumers
    requires if ix.head < ix.tail
             then ix3.consumers[t].at == T.Draw && T.Close(ix3.optimistic - ix3.consumers[t].overcommit, ix3.tail)
                  && Claims(ix, T.Next3(ix3, t), t, max)
             else Claims(ix, ix3, t, max)
    ensures Course(c, t) && c[0] == ix0 && Claims(ix, c[|c| - 1], t, max)
  {
    if ix.head < ix.tail {
      c := ThreeBefore(ix3, t, [T.Next3(ix3, t)]);
    } else {
      c := [ix3];
    }
    c := ThreeBefore(ix0, t, c);
  }

  lemma Called(p: Good, t: ThreadId, bulk: bool, max: nat) returns (p0: Good, c: seq<T.Indices>)
    requires AllIdle(p.q) && Enabled(p.q, Call(t, bulk, max)) && p.q.ix.tail - p.q.ix.head < T.HALF
    ensures p0 == Go(p, Call(t, bulk, max))
    ensures Draws(p0.q, t) && p0.x.produced == p.x.produced && p.q.ix.tail == |p.x.produced|
    ensures Course(c, t) && c[0] == p0.q.ix && Claims(p.q.ix, c[|c| - 1], t, max)
  {
    p0 := Next(p, Call(t, bulk, max));
    SoundInv(p);
    assert ReaderOk(p.q, p.x, t);
    c := CourseOf(p.q.ix, p.x.fates, t, bulk, max);
  }

  /** t is idle again and has taken out as many elements as it may of those from the old head up to the old tail. */
  ghost predicate Got(ix: T.Indices, produced: seq<Element>, p: State, t: ThreadId, max: nat) {
    && ix.head <= ix.tail && Rests(p, t)
    && var n := Lesser(max, ix.tail - ix.head);
    && p.q.ix.head == ix.head + n && Taken(p.x, produced, ix.head, n)
  }

  lemma Gets(f: State -> State, ix: T.Indices, c: seq<T.Indices>, p: Good, t: ThreadId, max: nat) returns (k: nat, p': Good)
    requires Runs(f, t) && Draws(p.q, t) && ix.tail == |p.x.produced|
    requires Course(c, t) && c[0] == p.q.ix && Claims(ix, c[|c| - 1], t, max)
    ensures Leads(f, p, k, p') && Got(ix, p.x.produced, p', t, max)
  {
    var p1 := FollowsAll(f, p, t, c);
    if ix.head < ix.tail {
      var rest;
      rest, p' := TakesAll(f, p1, t);
      k := |c| - 1 + rest;
      LeadsOn(f, p, |c| - 1, p1, rest, p');
    } else {
      k, p' := |c| - 1, p1;
    }
  }

  lemma Completes(p: Good, t: ThreadId, bulk: bool, max: nat) returns (k: nat)
    requires AllIdle(p.q) && Enabled(p.q, Call(t, bulk, max)) && p.q.ix.tail - p.q.ix.head < T.HALF
    ensures Got(p.q.ix, p.x.produced, Alone(Go(p, Call(t, bulk, max)), t, k), t, max)
  {
    var p0, c := Called(p, t, bulk, max);
    var p';
    k, p' := Gets(Runner(t), p.q.ix, c, p0, t, max);
    LeadsTo(Runner(t), p0, k, p');
  }

  lemma Reached(threads: set<ThreadId>, steps: seq<Action>) returns (p: Good)
    requires Timely(threads, steps)
    ensures p == State(Execute(threads, steps), History(threads, steps)) && p.q.ix.tail - p.q.ix.head < T.HALF
  {
    ExecuteInv(threads, steps);
    QueueEnqueue.NeverTooWide(threads, steps);
    InvSound(State(Execute(threads, steps), History(threads, steps)));
    p := State(Execute(threads, steps), History(threads, steps));
  }

  /**
   * Main theorem: in whatever state a run has brought the queue to, when no consumer is at work, a dequeue or
   * dequeue_bulk that is then left alone takes out as many elements as it may and as there are: the next
   * ones, as they were published, and none if there is none.
   */
  lemma LoneDequeue(threads: set<ThreadId>, steps: seq<Action>, t: ThreadId, bulk: bool, max: nat) returns (k: nat)
    requires Timely(threads, steps) && AllIdle(Execute(threads, steps))
    requires Enabled(Execute(threads, steps), Call(t, bulk, max))
    ensures var p := State(Execute(threads, steps), History(threads, steps));
            Got(p.q.ix, p.x.produced, Alone(Go(p, Call(t, bulk, max)), t, k), t, max)
  {
    var p := Reached(threads, steps);
    k := Completes(p, t, bulk, max);
  }
}
