/**
 * BlockingConcurrentQueue (deflect/moodycamel/blockingconcurrentqueue.h): the lock-free queue with a
 * semaphore that counts its elements. An element is inserted first and signalled afterwards, in
 * separate steps; a consumer acquires permits first and redeems them one successful dequeue each.
 *
 * The semaphore is the machine of module Semaphore. The inner queue is a bag here: across producers
 * it promises no order (module ImplicitQueue has the order within one producer).
 */
module BlockingQueue {
  import opened Common
  import opened Sums
  import S = Semaphore

  type Element = int

  datatype Phase =
    | Free
    | Inserted      // inner.enqueue is done, sema->signal is not called yet
    | Signalling    // inside signal, before the permit is added
    | Posting       // inside signal, waking sleepers
    | Waiting       // inside waitMany or tryWaitMany
    | Redeeming     // fetching the elements its permits stand for

  datatype Client = Client(phase: Phase, left: nat, out: seq<Element>)

  datatype Queue = Queue(sema: S.Sema, inner: multiset<Element>, clients: seq<Client>)

  datatype Action =
    | Enqueue(caller: ThreadId, element: Element)
    | Dequeue(caller: ThreadId, max: nat, wait: bool, timed: bool)   // (try|wait)_dequeue[_bulk][_timed]
    | Run(runner: ThreadId, fails: bool)
    | Fetch(runner: ThreadId, found: seq<Element>)                   // one inner.try_dequeue_bulk

  function Who(a: Action): ThreadId {
    if a.Run? || a.Fetch? then a.runner else a.caller
  }

  function SemaAction(s: Queue, a: Action): Option<S.Action> {
    if Who(a) >= |s.clients| then None else
    match a
    case Enqueue(_, _) => None
    case Dequeue(t, max, wait, timed) => Some(if wait then S.Wait(t, max, timed) else S.TryWait(t, max))
    case Run(t, fails) => Some(if s.clients[t].phase == Inserted then S.Signal(t, 1) else S.Run(t, fails))
    case Fetch(_, _) => None
  }

  ghost predicate Enabled(s: Queue, a: Action) {
    && Who(a) < |s.clients|
    && (SemaAction(s, a).Some? ==> S.Enabled(s.sema, SemaAction(s, a).value))
    && var me := s.clients[Who(a)];
    match a
    case Enqueue(_, _) => me.phase == Free
    case Dequeue(_, _, _, _) => me.phase == Free
    case Run(_, _) => me.phase !in {Free, Redeeming}
    case Fetch(_, found) => me.phase == Redeeming && |found| <= me.left && multiset(found) <= s.inner
  }

  /** Where a client stands after its thread did one operation of the semaphore. */
  function After(me: Client, th: S.Thread): Client {
    match th.at
    case Idle =>
      if me.phase == Waiting && th.result > 0 then me.(phase := Redeeming, left := th.result) else me.(phase := Free)
    case Add => me.(phase := Signalling)
    case Post => me.(phase := Posting)
    case _ => me.(phase := Waiting)
  }

  function Step(s: Queue, a: Action): Queue {
    var t := Who(a);
    if t >= |s.clients| then s else
    var me := s.clients[t];
    var sema := if SemaAction(s, a).Some? then S.Step(s.sema, SemaAction(s, a).value) else s.sema;
    match a
    case Enqueue(_, e) => s.(inner := s.inner + multiset{e}, clients := s.clients[t := me.(phase := Inserted)])
    case Dequeue(_, _, _, _) => s.(sema := sema, clients := s.clients[t := me.(phase := Waiting)])
    case Run(_, _) =>
      if t < |sema.threads| then s.(sema := sema, clients := s.clients[t := After(me, sema.threads[t])]) else s
    case Fetch(_, found) =>
      var left := if |found| < me.left then me.left - |found| else 0;
      s.(inner := s.inner - multiset(found),
         clients := s.clients[t := Client(if left > 0 then Redeeming else Free, left, me.out + found)])
  }

  // ---------------------------------------------------------------------------------------
  // Accounts
  // ---------------------------------------------------------------------------------------

  /** accounts: the semaphore's; put: everything enqueued; fetched: how many elements were handed out. */
  datatype Books = Books(accounts: S.Ledger, put: multiset<Element>, fetched: multiset<Element>)

  function Book(s: Queue, b: Books, a: Action): Books {
    match a
    case Enqueue(_, e) => b.(put := b.put + multiset{e})
    case Fetch(_, found) => b.(fetched := b.fetched + multiset(found))
    case _ =>
      if SemaAction(s, a).Some? then b.(accounts := S.Book(s.sema, b.accounts, SemaAction(s, a).value)) else b
  }

  /** Permits a client has acquired and not redeemed. */
  function Left(c: Client): nat {
    c.left
  }

  /** One element inserted without its permit. */
  function Unsignalled(c: Client): nat {
    if c.phase in {Inserted, Signalling} then 1 else 0
  }

  function Unredeemed(s: Queue): nat {
    Total(s.clients, Left)
  }

  function InFlight(s: Queue): nat {
    Total(s.clients, Unsignalled)
  }

  ghost predicate ClientOk(c: Client, th: S.Thread) {
    && (c.phase in {Free, Inserted, Redeeming} <==> th.at == S.Idle)
    && (c.phase == Signalling <==> th.at == S.Add)
    && (c.phase == Posting <==> th.at == S.Post)
    && (th.at == S.Add ==> th.amount == 1)
    && (c.left > 0 <==> c.phase == Redeeming)
  }

  ghost predicate Inv(s: Queue, b: Books) {
    && S.Inv(s.sema, b.accounts) && |s.sema.threads| == |s.clients|
    && (forall i {:trigger ClientOk(s.clients[i], s.sema.threads[i])} :: 0 <= i < |s.clients| ==>
          ClientOk(s.clients[i], s.sema.threads[i]))
    && b.put == s.inner + b.fetched
    && |b.put| == b.accounts.signalled + InFlight(s)
    && b.accounts.returned == |b.fetched| + Unredeemed(s)
  }

  /** What one operation of client t does to the accounts. */
  ghost predicate Balanced(s: Queue, b: Books, s': Queue, b': Books, t: ThreadId) {
    && t < |s.clients| == |s'.clients| && s'.clients == s.clients[t := s'.clients[t]]
    && |s'.sema.threads| == |s.sema.threads| == |s.clients|
    && (forall i :: 0 <= i < |s.clients| && i != t ==> s'.sema.threads[i] == s.sema.threads[i])
    && ClientOk(s'.clients[t], s'.sema.threads[t])
    && var me, me' := s.clients[t], s'.clients[t];
    && |b'.put| - |b.put| == b'.accounts.signalled - b.accounts.signalled + Unsignalled(me') - Unsignalled(me)
    && b'.accounts.returned - b.accounts.returned == |b'.fetched| - |b.fetched| + me'.left - me.left
  }

  lemma BalanceKept(s: Queue, b: Books, s': Queue, b': Books, t: ThreadId)
    requires Inv(s, b) && Balanced(s, b, s', b', t) && S.Inv(s'.sema, b'.accounts)
    requires b'.put == s'.inner + b'.fetched
    ensures Inv(s', b')
  {
    TotalUpdate(s.clients, t, s'.clients[t], Left);
    TotalUpdate(s.clients, t, s'.clients[t], Unsignalled);
    forall i | 0 <= i < |s'.clients| ensures ClientOk(s'.clients[i], s'.sema.threads[i]) {
      if i != t { assert ClientOk(s.clients[i], s.sema.threads[i]); }
    }
  }

  /** What one operation of the semaphore tells the client about its thread. */
  lemma SemaEffect(s: S.Sema, l: S.Ledger, a: S.Action)
    requires S.Enabled(s, a)
    ensures var t, s', l' := S.Who(a), S.Step(s, a), S.Book(s, l, a);
            && |s'.threads| == |s.threads|
            && (forall i :: 0 <= i < |s.threads| && i != t ==> s'.threads[i] == s.threads[i])
            && var th, th' := s.threads[t], s'.threads[t];
            && (a.Signal? ==> th'.at == S.Add && th'.amount == a.n && l' == l)
            && (a.Wait? || a.TryWait? ==> th'.at == S.TryLoad && l' == l)
            && (a.Run? ==>
                  && (th.at == S.Add ==> th'.at in {S.Post, S.Idle} && l' == l.(signalled := l.signalled + th.amount))
                  && (th.at == S.Post ==> th'.at in {S.Post, S.Idle} && l' == l)
                  && (th.at !in {S.Add, S.Post} ==>
                        && th'.at !in {S.Add, S.Post}
                        && l' == l.(returned := l.returned + if th'.at == S.Idle then th'.result else 0)))
  {
  }

  lemma SemaBalanced(s: Queue, b: Books, a: Action)
    requires |s.sema.threads| == |s.clients| && Enabled(s, a) && SemaAction(s, a).Some?
    requires ClientOk(s.clients[Who(a)], s.sema.threads[Who(a)])
    ensures Balanced(s, b, Step(s, a), Book(s, b, a), Who(a))
  {
    SemaEffect(s.sema, b.accounts, SemaAction(s, a).value);
  }

  /** The operations that touch only the bag. */
  lemma BagBalanced(s: Queue, b: Books, a: Action)
    requires |s.sema.threads| == |s.clients| && Enabled(s, a) && (a.Enqueue? || a.Fetch?)
    requires ClientOk(s.clients[Who(a)], s.sema.threads[Who(a)])
    ensures Balanced(s, b, Step(s, a), Book(s, b, a), Who(a))
    ensures b.put == s.inner + b.fetched ==> Book(s, b, a).put == Step(s, a).inner + Book(s, b, a).fetched
    ensures Step(s, a).sema == s.sema && Book(s, b, a).accounts == b.accounts
  {
  }

  lemma StepInv(s: Queue, b: Books, a: Action)
    requires Inv(s, b) && Enabled(s, a)
    ensures Inv(Step(s, a), Book(s, b, a))
  {
    assert ClientOk(s.clients[Who(a)], s.sema.threads[Who(a)]);
    if a.Enqueue? || a.Fetch? {
      BagBalanced(s, b, a);
    } else {
      S.StepInv(s.sema, b.accounts, SemaAction(s, a).value);
      SemaBalanced(s, b, a);
    }
    BalanceKept(s, b, Step(s, a), Book(s, b, a), Who(a));
  }

  // ---------------------------------------------------------------------------------------
  // Runs
  // ---------------------------------------------------------------------------------------

  function Init(threads: nat): Queue {
    Queue(S.Init(threads, 0), multiset{}, seq(threads, _ => Client(Free, 0, [])))
  }

  function Execute(threads: nat, steps: seq<Action>): Queue {
    if steps == [] then Init(threads) else Step(Execute(threads, steps[..|steps| - 1]), steps[|steps| - 1])
  }

  function Record(threads: nat, steps: seq<Action>): Books {
    if steps == [] then Books(S.Ledger(0, 0), multiset{}, multiset{})
    else Book(Execute(threads, steps[..|steps| - 1]), Record(threads, steps[..|steps| - 1]), steps[|steps| - 1])
  }

  ghost predicate Legal(threads: nat, steps: seq<Action>) {
    steps == [] ||
    (Legal(threads, steps[..|steps| - 1]) && Enabled(Execute(threads, steps[..|steps| - 1]), steps[|steps| - 1]))
  }

  lemma {:induction false} ExecuteInv(threads: nat, steps: seq<Action>)
    requires Legal(threads, steps)
    ensures Inv(Execute(threads, steps), Record(threads, steps))
  {
    if steps == [] {
      var s := Init(threads);
      TotalZero(s.clients, Left);
      TotalZero(s.clients, Unsignalled);
      S.ExecuteInv(threads, 0, []);
    } else {
      ExecuteInv(threads, steps[..|steps| - 1]);
      StepInv(Execute(threads, steps[..|steps| - 1]), Record(threads, steps[..|steps| - 1]), steps[|steps| - 1]);
    }
  }

  /** Nothing is lost, duplicated or invented, and every element has been handed out or is still inside. */
  lemma ElementsConserved(threads: nat, steps: seq<Action>)
    requires Legal(threads, steps)
    ensures var b := Record(threads, steps); b.put == Execute(threads, steps).inner + b.fetched
  {
    ExecuteInv(threads, steps);
  }

  /**
   * The inner queue holds one element for every permit that is free, on its way, or acquired and not
   * redeemed, and one more for every enqueue that has not signalled yet.
   */
  lemma ElementsCoverPermits(threads: nat, steps: seq<Action>)
    requires Legal(threads, steps)
    ensures var s := Execute(threads, steps);
            |s.inner| == S.Max0(s.sema.count) + s.sema.kernel + S.Unreleased(s.sema) + S.InTransit(s.sema)
                         + Unredeemed(s) + InFlight(s)
  {
    ExecuteInv(threads, steps);
  }

  /** The loop that redeems permits never runs on an empty queue: it is owed at most what is there. */
  lemma RedeemingFinds(threads: nat, steps: seq<Action>, t: ThreadId)
    requires Legal(threads, steps) && t < |Execute(threads, steps).clients|
    ensures Execute(threads, steps).clients[t].left <= |Execute(threads, steps).inner|
  {
    ElementsCoverPermits(threads, steps);
    TotalAtLeast(Execute(threads, steps).clients, t, Left);
  }

  /** No other thread consumes. */
  ghost predicate SoleConsumer(s: Queue, t: ThreadId) {
    forall u {:trigger s.clients[u]} :: 0 <= u < |s.clients| && u != t ==> s.clients[u].phase !in {Waiting, Redeeming}
  }

  /**
   * When try_dequeue_bulk of the only consumer finds no permit, all that is left in the queue is
   * what other threads have inserted and not signalled yet.
   */
  lemma NoPermitMeansInFlight(threads: nat, steps: seq<Action>, t: ThreadId)
    requires Legal(threads, steps) && t < |Execute(threads, steps).clients|
    requires var s := Execute(threads, steps);
             && SoleConsumer(s, t) && t < |s.sema.threads|
             && s.sema.threads[t].at == S.TryLoad && s.sema.threads[t].got == 0
             && s.sema.count <= 0
    ensures |Execute(threads, steps).inner| == InFlight(Execute(threads, steps))
  {
    ExecuteInv(threads, steps);
    OnlyInFlight(Execute(threads, steps), Record(threads, steps), t);
  }

  lemma OnlyInFlight(s: Queue, b: Books, t: ThreadId)
    requires Inv(s, b) && t < |s.clients| && SoleConsumer(s, t)
    requires s.sema.threads[t].at == S.TryLoad && s.sema.threads[t].got == 0 && s.sema.count <= 0
    ensures |s.inner| == InFlight(s)
  {
    forall i | 0 <= i < |s.clients|
      ensures S.Waits(s.sema.threads[i]) == S.Got(s.sema.threads[i]) == Left(s.clients[i]) == 0 {
      assert ClientOk(s.clients[i], s.sema.threads[i]) && S.ThreadOk(s.sema.threads[i]);
    }
    TotalZero(s.sema.threads, S.Waits);
    TotalZero(s.sema.threads, S.Got);
    TotalZero(s.clients, Left);
  }

  // ---------------------------------------------------------------------------------------
  // What a call gets
  // ---------------------------------------------------------------------------------------

  /** An enqueue that nobody disturbs puts its element in and makes one more permit. */
  lemma LoneEnqueue(s: Queue, b: Books, t: ThreadId, e: Element)
    requires Inv(s, b) && t < |s.clients| && s.clients[t].phase == Free && s.sema.count >= 0
    ensures var s' := Step(Step(Step(s, Enqueue(t, e)), Run(t, false)), Run(t, false));
            && s'.clients[t].phase == Free && s'.inner == s.inner + multiset{e} && s'.sema.count == s.sema.count + 1
  {
    assert ClientOk(s.clients[t], s.sema.threads[t]);
    var s1 := Step(s, Enqueue(t, e));
    assert s1.clients[t].phase == Inserted && s1.sema == s.sema;
    var s2 := Step(s1, Run(t, false));
    assert s2.clients[t].phase == Signalling && s2.sema.threads[t].at == S.Add && s2.sema.threads[t].amount == 1;
  }

  /** A bulk dequeue that nobody disturbs acquires as many elements as it may and as there are permits for. */
  lemma LoneAcquire(s: Queue, b: Books, t: ThreadId, max: nat, wait: bool, timed: bool)
    requires Inv(s, b) && t < |s.clients| && s.clients[t].phase == Free && max > 0 && (wait ==> s.sema.count > 0)
    ensures var s' := Step(Step(s, Dequeue(t, max, wait, timed)), Run(t, false));
            if s.sema.count <= 0 then s'.clients[t] == s.clients[t] && s'.inner == s.inner && s'.sema.count == s.sema.count
            else
              var done, n := Step(s', Run(t, false)), S.Lesser(max, s.sema.count);
              && done.clients[t].phase == Redeeming && done.clients[t].left == n && done.clients[t].out == s.clients[t].out
              && done.inner == s.inner && done.sema.count == s.sema.count - n
  {
    assert ClientOk(s.clients[t], s.sema.threads[t]);
    var s1 := Step(s, Dequeue(t, max, wait, timed));
    assert s1.clients[t].phase == Waiting && s1.sema.threads[t].at == S.TryLoad && s1.sema.count == s.sema.count;
    var s2 := Step(s1, Run(t, false));
    assert s2.sema == S.Perform(s1.sema, t, false);
    if s.sema.count > 0 { assert s2.sema.threads[t].at == S.TryCas && s2.sema.threads[t].max == max; }
    else { assert s2.sema.threads[t].at == S.Idle && s2.sema.threads[t].result == 0; }
  }

  /** It redeems them with that many elements, which leave the queue in its hands; then it is done. */
  lemma Redeems(s: Queue, t: ThreadId, found: seq<Element>)
    requires Enabled(s, Fetch(t, found))
    ensures var s' := Step(s, Fetch(t, found));
            && s'.clients[t].out == s.clients[t].out + found && s.inner == s'.inner + multiset(found)
            && s'.clients[t].left == s.clients[t].left - |found|
            && (s'.clients[t].phase == Free <==> |found| == s.clients[t].left)
  {
  }
}
