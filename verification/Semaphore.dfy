/**
 * LightweightSemaphore (deflect/moodycamel/blockingconcurrentqueue.h): an atomic count in front of a
 * kernel semaphore. One step is one atomic operation or one kernel call of one thread.
 *
 * wait() and wait(timeout) are waitMany with a maximum of one: they perform the same operations.
 */
module Semaphore {
  import opened Common
  import opened Sums

  const SPINS: nat := 10000

  datatype Label =
    | Idle
    | TryLoad | TryCas                      // tryWaitMany
    | SpinLoad | SpinCas | Subtract         // waitManyWithPartialSpinning
    | Sleep                                 // m_sema.wait / timed_wait
    | Reload | KernelTry | Readjust         // the loop after a time-out
    | Add | Post                            // signal

  /** A thread: its position and its local variables. */
  datatype Thread = Thread(
    at: Label,
    asked: nat, must: bool, timed: bool,    // the call: how many at most, is it waitMany, with a time-out
    max: nat, blocking: bool, spin: nat, seen: int,
    got: nat,                               // permits taken so far in this call
    amount: nat,                            // signal: still to be added or posted
    result: nat)                            // what the last wait returned

  datatype Sema = Sema(count: int, kernel: nat, threads: seq<Thread>)

  datatype Action =
    | Wait(caller: ThreadId, max: nat, timed: bool)   // waitMany(max[, timeout])
    | TryWait(caller: ThreadId, max: nat)             // tryWaitMany(max)
    | Signal(caller: ThreadId, n: nat)
    | Run(runner: ThreadId, fails: bool)              // fails: the weak CAS fails spuriously, the timed wait times out

  function Who(a: Action): ThreadId {
    if a.Run? then a.runner else a.caller
  }

  predicate Enabled(s: Sema, a: Action) {
    && Who(a) < |s.threads|
    && if !a.Run? then s.threads[Who(a)].at == Idle else CanRun(s, s.threads[Who(a)], a.fails)
  }

  /** A sleeper goes on only when the kernel has a permit for it or its time is over. */
  predicate CanRun(s: Sema, me: Thread, fails: bool) {
    && me.at != Idle
    && (me.at == Sleep ==> if fails then me.timed else s.kernel > 0)
  }

  function Return(me: Thread, result: nat): Thread {
    me.(at := Idle, result := result, got := 0)
  }

  /** tryWaitMany found nothing. */
  function Missed(me: Thread): Thread {
    if me.blocking && me.max > 0 then me.(at := SpinLoad, spin := SPINS) else Return(me, me.got)
  }

  /** The loop head of tryWaitMany. */
  function TryAgain(me: Thread, seen: int): Thread {
    if seen > 0 then me.(at := TryCas, seen := seen) else Missed(me)
  }

  /** One more turn of the spinning loop, or its end. */
  function Spin(me: Thread): Thread {
    if me.spin > 1 then me.(at := SpinLoad, spin := me.spin - 1) else me.(at := Subtract, spin := 0)
  }

  /** One permit is there; more are taken only if they can be had at once. */
  function GotOne(me: Thread): Thread {
    if me.max > 1 then me.(at := TryLoad, max := me.max - 1, got := 1, blocking := false) else Return(me, 1)
  }

  function Remaining(seen: int, max: nat): int {
    if seen > max then seen - max else 0
  }

  function Put(s: Sema, t: ThreadId, me: Thread): Sema
    requires t < |s.threads|
  {
    s.(threads := s.threads[t := me])
  }

  function Perform(s: Sema, t: ThreadId, fails: bool): Sema
    requires t < |s.threads|
  {
    var me := s.threads[t];
    match me.at
    case Idle => s
    case TryLoad => Put(s, t, TryAgain(me, s.count))
    case TryCas =>
      if s.count == me.seen && !fails
      then Put(s.(count := Remaining(me.seen, me.max)), t,
               Return(me, me.got + Max0(me.seen - Remaining(me.seen, me.max))))
      else Put(s, t, TryAgain(me, s.count))
    case SpinLoad =>
      Put(s, t, if s.count > 0 then me.(at := SpinCas, seen := s.count) else Spin(me))
    case SpinCas =>
      if s.count == me.seen
      then Put(s.(count := Remaining(me.seen, me.max)), t, Return(me, Max0(me.seen - Remaining(me.seen, me.max))))
      else Put(s, t, Spin(me))
    case Subtract => Put(s.(count := s.count - 1), t, if s.count > 0 then GotOne(me) else me.(at := Sleep))
    case Sleep =>
      if fails || s.kernel == 0 then Put(s, t, me.(at := Reload)) else Put(s.(kernel := s.kernel - 1), t, GotOne(me))
    case Reload => Put(s, t, me.(at := if s.count >= 0 then KernelTry else Readjust, seen := s.count))
    case KernelTry =>
      if s.kernel > 0 then Put(s.(kernel := s.kernel - 1), t, GotOne(me)) else Put(s, t, me.(at := Reload))
    case Readjust =>
      if s.count == me.seen then Put(s.(count := s.count + 1), t, Return(me, 0)) else Put(s, t, me.(at := Reload))
    case Add =>
      var toRelease := if -s.count < me.amount then -s.count else me.amount;
      Put(s.(count := s.count + me.amount), t,
          if toRelease > 0 then me.(at := Post, amount := toRelease) else me.(at := Idle, amount := 0))
    case Post =>
      Put(s.(kernel := s.kernel + 1), t,
          if me.amount > 1 then me.(amount := me.amount - 1) else me.(at := Idle, amount := 0))
  }

  function Step(s: Sema, a: Action): Sema {
    if Who(a) >= |s.threads| then s else
    var me := s.threads[Who(a)];
    match a
    case Wait(t, max, timed) =>
      Put(s, t, me.(at := TryLoad, asked := max, must := true, timed := timed, max := max, blocking := true, got := 0))
    case TryWait(t, max) =>
      Put(s, t, me.(at := TryLoad, asked := max, must := false, timed := false, max := max, blocking := false, got := 0))
    case Signal(t, n) => Put(s, t, me.(at := Add, amount := n))
    case Run(t, fails) => Perform(s, t, fails)
  }

  function Max0(x: int): nat {
    if x > 0 then x else 0
  }

  // ---------------------------------------------------------------------------------------
  // Accounts
  // ---------------------------------------------------------------------------------------

  /** Permits ever put in (the initial count included), and permits waits have returned. */
  datatype Ledger = Ledger(signalled: nat, returned: nat)

  function Book(s: Sema, l: Ledger, a: Action): Ledger {
    if !a.Run? || Who(a) >= |s.threads| then l else
    var before, after := s.threads[Who(a)], Step(s, a).threads[Who(a)];
    if before.at == Add then l.(signalled := l.signalled + before.amount)
    else if before.at != Idle && before.at != Post && after.at == Idle then l.(returned := l.returned + after.result)
    else l
  }

  /** Threads that have decremented the count and wait for a kernel permit. */
  function Waits(th: Thread): nat {
    if th.at in {Sleep, Reload, KernelTry, Readjust} then 1 else 0
  }

  /** Kernel permits a signalling thread still has to post. */
  function Unposted(th: Thread): nat {
    if th.at == Post then th.amount else 0
  }

  /** Permits a waiter has taken without having returned yet. */
  function Got(th: Thread): nat {
    th.got
  }

  function Waiters(s: Sema): nat {
    Total(s.threads, Waits)
  }

  function Unreleased(s: Sema): nat {
    Total(s.threads, Unposted)
  }

  function InTransit(s: Sema): nat {
    Total(s.threads, Got)
  }

  ghost predicate ThreadOk(th: Thread) {
    && (th.at in {TryLoad, TryCas} ==> th.got + th.max == th.asked && (th.blocking ==> th.got == 0))
    && (th.at !in {TryLoad, TryCas} ==> th.got == 0)
    && (th.at in {TryLoad, TryCas} && th.must && !th.blocking ==> th.got == 1)
    && (th.at in {SpinLoad, SpinCas, Subtract, Sleep, Reload, KernelTry, Readjust} ==> th.max == th.asked > 0)
    && (th.at in {TryCas, SpinCas} ==> th.seen > 0)
    && (th.at in {Reload, KernelTry, Readjust} ==> th.timed)
    && (th.at == Readjust ==> th.seen < 0)
    && (th.at == Post ==> th.amount > 0)
    && (th.at == Idle ==> th.result <= th.asked && (th.must && !th.timed && th.asked > 0 ==> th.result > 0))
    && (th.at in {Add, Post} ==> th.result <= th.asked && (th.must && !th.timed && th.asked > 0 ==> th.result > 0))
  }

  /**
   * Everybody who waits in the kernel has a permit there, one about to be posted, or is counted in a
   * negative count; every permit put in has been returned, taken, or is free somewhere.
   */
  ghost predicate InBalance(s: Sema, l: Ledger) {
    && Waiters(s) == s.kernel + Unreleased(s) + Max0(-s.count)
    && l.signalled == l.returned + InTransit(s) + Max0(s.count) + s.kernel + Unreleased(s)
  }

  ghost predicate Inv(s: Sema, l: Ledger) {
    && (forall i {:trigger ThreadOk(s.threads[i])} :: 0 <= i < |s.threads| ==> ThreadOk(s.threads[i]))
    && InBalance(s, l)
  }

  /** What one operation of thread t does to the accounts: its own share and the counters change by the same amount. */
  ghost predicate Balanced(s: Sema, l: Ledger, s': Sema, l': Ledger, t: ThreadId) {
    && t < |s.threads| == |s'.threads|
    && s'.threads == s.threads[t := s'.threads[t]]
    && ThreadOk(s'.threads[t])
    && var me, me' := s.threads[t], s'.threads[t];
    && Waits(me') - Waits(me) ==
         s'.kernel - s.kernel + Unposted(me') - Unposted(me) + Max0(-s'.count) - Max0(-s.count)
    && l'.signalled - l.signalled ==
         l'.returned - l.returned + Got(me') - Got(me) + Max0(s'.count) - Max0(s.count)
         + s'.kernel - s.kernel + Unposted(me') - Unposted(me)
  }

  lemma EnterBalanced(s: Sema, l: Ledger, a: Action)
    requires Enabled(s, a) && ThreadOk(s.threads[Who(a)]) && !a.Run?
    ensures Balanced(s, l, Step(s, a), Book(s, l, a), Who(a))
  {
  }

  lemma LookBalanced(s: Sema, l: Ledger, a: Action)
    requires Enabled(s, a) && ThreadOk(s.threads[Who(a)]) && s.threads[Who(a)].at in {TryLoad, SpinLoad}
    ensures Balanced(s, l, Step(s, a), Book(s, l, a), Who(a))
  {
  }

  lemma TryCasBalanced(s: Sema, l: Ledger, a: Action)
    requires Enabled(s, a) && ThreadOk(s.threads[Who(a)]) && s.threads[Who(a)].at == TryCas && a.Run?
    requires s.count == s.threads[Who(a)].seen && !a.fails
    ensures Balanced(s, l, Step(s, a), Book(s, l, a), Who(a))
  {
  }

  lemma TryCasMisses(s: Sema, l: Ledger, a: Action)
    requires Enabled(s, a) && ThreadOk(s.threads[Who(a)]) && s.threads[Who(a)].at == TryCas && a.Run?
    requires s.count != s.threads[Who(a)].seen || a.fails
    ensures Balanced(s, l, Step(s, a), Book(s, l, a), Who(a))
  {
  }

  lemma SpinCasBalanced(s: Sema, l: Ledger, a: Action)
    requires Enabled(s, a) && ThreadOk(s.threads[Who(a)]) && s.threads[Who(a)].at == SpinCas
    ensures Balanced(s, l, Step(s, a), Book(s, l, a), Who(a))
  {
  }

  lemma SubtractBalanced(s: Sema, l: Ledger, a: Action)
    requires Enabled(s, a) && ThreadOk(s.threads[Who(a)]) && s.threads[Who(a)].at == Subtract
    ensures Balanced(s, l, Step(s, a), Book(s, l, a), Who(a))
  {
  }

  lemma SleepBalanced(s: Sema, l: Ledger, a: Action)
    requires Enabled(s, a) && ThreadOk(s.threads[Who(a)])
    requires s.threads[Who(a)].at in {Sleep, Reload, KernelTry, Readjust}
    ensures Balanced(s, l, Step(s, a), Book(s, l, a), Who(a))
  {
  }

  lemma AddBalanced(s: Sema, l: Ledger, a: Action)
    requires Enabled(s, a) && ThreadOk(s.threads[Who(a)]) && s.threads[Who(a)].at == Add
    ensures Balanced(s, l, Step(s, a), Book(s, l, a), Who(a))
  {
  }

  lemma PostBalanced(s: Sema, l: Ledger, a: Action)
    requires Enabled(s, a) && ThreadOk(s.threads[Who(a)]) && s.threads[Who(a)].at == Post
    ensures Balanced(s, l, Step(s, a), Book(s, l, a), Who(a))
  {
  }

  lemma BalanceKept(s: Sema, l: Ledger, s': Sema, l': Ledger, t: ThreadId)
    requires Inv(s, l) && Balanced(s, l, s', l', t)
    ensures Inv(s', l')
  {
    var me' := s'.threads[t];
    TotalUpdate(s.threads, t, me', Waits);
    TotalUpdate(s.threads, t, me', Unposted);
    TotalUpdate(s.threads, t, me', Got);
    forall i | 0 <= i < |s'.threads| ensures ThreadOk(s'.threads[i]) {
      assert i != t ==> ThreadOk(s.threads[i]);
    }
  }

  lemma StepInv(s: Sema, l: Ledger, a: Action)
    requires Inv(s, l) && Enabled(s, a)
    ensures Inv(Step(s, a), Book(s, l, a))
  {
    var me := s.threads[Who(a)];
    assert ThreadOk(me);
    if !a.Run? { EnterBalanced(s, l, a); }
    else if me.at in {TryLoad, SpinLoad} { LookBalanced(s, l, a); }
    else if me.at == TryCas {
      if s.count == me.seen && !a.fails { TryCasBalanced(s, l, a); } else { TryCasMisses(s, l, a); }
    }
    else if me.at == SpinCas { SpinCasBalanced(s, l, a); }
    else if me.at == Subtract { SubtractBalanced(s, l, a); }
    else if me.at == Add { AddBalanced(s, l, a); }
    else if me.at == Post { PostBalanced(s, l, a); }
    else { SleepBalanced(s, l, a); }
    BalanceKept(s, l, Step(s, a), Book(s, l, a), Who(a));
  }

  // ---------------------------------------------------------------------------------------
  // Runs
  // ---------------------------------------------------------------------------------------

  function Init(threads: nat, initial: nat): Sema {
    Sema(initial, 0, seq(threads, _ => Thread(Idle, 0, false, false, 0, false, 0, 0, 0, 0, 0)))
  }

  function Execute(threads: nat, initial: nat, steps: seq<Action>): Sema {
    if steps == [] then Init(threads, initial)
    else Step(Execute(threads, initial, steps[..|steps| - 1]), steps[|steps| - 1])
  }

  function Accounts(threads: nat, initial: nat, steps: seq<Action>): Ledger {
    if steps == [] then Ledger(initial, 0)
    else Book(Execute(threads, initial, steps[..|steps| - 1]), Accounts(threads, initial, steps[..|steps| - 1]),
              steps[|steps| - 1])
  }

  ghost predicate Legal(threads: nat, initial: nat, steps: seq<Action>) {
    steps == [] ||
    (&& Legal(threads, initial, steps[..|steps| - 1])
     && Enabled(Execute(threads, initial, steps[..|steps| - 1]), steps[|steps| - 1]))
  }

  lemma {:induction false} ExecuteInv(threads: nat, initial: nat, steps: seq<Action>)
    requires Legal(threads, initial, steps)
    ensures Inv(Execute(threads, initial, steps), Accounts(threads, initial, steps))
  {
    if steps == [] {
      var ts := Init(threads, initial).threads;
      TotalZero(ts, Waits);
      TotalZero(ts, Unposted);
      TotalZero(ts, Got);
    } else {
      ExecuteInv(threads, initial, steps[..|steps| - 1]);
      StepInv(Execute(threads, initial, steps[..|steps| - 1]), Accounts(threads, initial, steps[..|steps| - 1]),
              steps[|steps| - 1]);
    }
  }

  /** Both accounts balance in every reachable state, time-outs and greedy waits included. */
  lemma Conservation(threads: nat, initial: nat, steps: seq<Action>)
    requires Legal(threads, initial, steps)
    ensures InBalance(Execute(threads, initial, steps), Accounts(threads, initial, steps))
  {
    ExecuteInv(threads, initial, steps);
  }

  /** Waits never return more permits than were put in. */
  lemma NoOverAcquisition(threads: nat, initial: nat, steps: seq<Action>)
    requires Legal(threads, initial, steps)
    ensures Accounts(threads, initial, steps).returned <= Accounts(threads, initial, steps).signalled
  {
    ExecuteInv(threads, initial, steps);
  }

  /** A call returns at most what it asked for, and waitMany without a time-out at least one permit. */
  lemma ResultsInRange(threads: nat, initial: nat, steps: seq<Action>, t: ThreadId)
    requires Legal(threads, initial, steps) && t < |Execute(threads, initial, steps).threads|
    requires Execute(threads, initial, steps).threads[t].at == Idle
    ensures var th := Execute(threads, initial, steps).threads[t];
            th.result <= th.asked && (th.must && !th.timed && th.asked > 0 ==> th.result > 0)
  {
    ExecuteInv(threads, initial, steps);
    assert ThreadOk(Execute(threads, initial, steps).threads[t]);
  }

  /**
   * No lost wake-up: as long as a permit is free, every thread on its way to sleep or asleep has a
   * kernel permit of its own, posted already or about to be posted by a thread inside signal.
   */
  lemma NobodySleepsForNothing(threads: nat, initial: nat, steps: seq<Action>)
    requires Legal(threads, initial, steps) && Execute(threads, initial, steps).count >= 0
    ensures var s := Execute(threads, initial, steps); Waiters(s) == s.kernel + Unreleased(s)
  {
    ExecuteInv(threads, initial, steps);
  }

  ghost predicate Stuck(s: Sema) {
    forall t {:trigger s.threads[t]} :: 0 <= t < |s.threads| ==>
      s.threads[t].at == Idle || !CanRun(s, s.threads[t], false)
  }

  /** When nobody can go on by itself, either nobody waits or every permit ever put in has been returned. */
  lemma StuckMeansSpent(threads: nat, initial: nat, steps: seq<Action>)
    requires Legal(threads, initial, steps) && Stuck(Execute(threads, initial, steps))
    ensures var s, l := Execute(threads, initial, steps), Accounts(threads, initial, steps);
            && s.kernel == 0 && Waiters(s) == Max0(-s.count)
            && l.signalled == l.returned + Max0(s.count)
            && (Waiters(s) > 0 ==> l.signalled == l.returned)
  {
    ExecuteInv(threads, initial, steps);
    StuckState(Execute(threads, initial, steps), Accounts(threads, initial, steps));
  }

  lemma StuckState(s: Sema, l: Ledger)
    requires Inv(s, l) && Stuck(s)
    ensures s.kernel == 0 && Unreleased(s) == 0 && InTransit(s) == 0
  {
    forall i | 0 <= i < |s.threads| ensures Unposted(s.threads[i]) == 0 && Got(s.threads[i]) == 0 {
      assert ThreadOk(s.threads[i]);
    }
    TotalZero(s.threads, Unposted);
    TotalZero(s.threads, Got);
    if s.kernel > 0 {
      forall i | 0 <= i < |s.threads| ensures Waits(s.threads[i]) == 0 { assert s.threads[i] == s.threads[i]; }
      TotalZero(s.threads, Waits);
    }
  }

  /**
   * After a time-out the loop cannot trap its thread: once no signal is half-done, it leaves in two
   * steps of its own, with the permit that was meant for it or with none and the count put right.
   */
  lemma TimedOutGetsOut(threads: nat, initial: nat, steps: seq<Action>, t: ThreadId)
    requires Legal(threads, initial, steps) && t < |Execute(threads, initial, steps).threads|
    requires Execute(threads, initial, steps).threads[t].at == Reload && Unreleased(Execute(threads, initial, steps)) == 0
    ensures var s := Execute(threads, initial, steps);
            var after := Perform(Perform(s, t, false), t, false).threads[t];
            if s.count < 0 then after.at == Idle && after.result == 0
            else if after.asked == 1 then after.at == Idle && after.result == 1
            else after.at == TryLoad && after.got == 1 && after.max == after.asked - 1
  {
    ExecuteInv(threads, initial, steps);
    LeavesLoop(Execute(threads, initial, steps), Accounts(threads, initial, steps), t);
  }

  lemma LeavesLoop(s: Sema, l: Ledger, t: ThreadId)
    requires Inv(s, l) && t < |s.threads| && s.threads[t].at == Reload && Unreleased(s) == 0
    ensures var after := Perform(Perform(s, t, false), t, false).threads[t];
            if s.count < 0 then after.at == Idle && after.result == 0
            else if after.asked == 1 then after.at == Idle && after.result == 1
            else after.at == TryLoad && after.got == 1 && after.max == after.asked - 1
  {
    TotalAtLeast(s.threads, t, Waits);
    assert ThreadOk(s.threads[t]);
  }

  /** The number signal hands to the kernel is at most the number of threads, so its conversion to int is exact. */
  lemma ReleaseFits(threads: nat, initial: nat, steps: seq<Action>)
    requires Legal(threads, initial, steps)
    ensures -Execute(threads, initial, steps).count <= |Execute(threads, initial, steps).threads|
  {
    ExecuteInv(threads, initial, steps);
    WaitersBound(Execute(threads, initial, steps).threads);
  }

  lemma {:induction false} WaitersBound(ts: seq<Thread>)
    ensures Total(ts, Waits) <= |ts|
  {
    if ts != [] { WaitersBound(ts[..|ts| - 1]); }
  }

  // ---------------------------------------------------------------------------------------
  // What a call gets
  // ---------------------------------------------------------------------------------------

  function Lesser(a: int, b: int): int {
    if a < b then a else b
  }

  /** The compare-and-swap that succeeds takes all that is there, up to what is asked for, and ends the call. */
  lemma TakesAllItMay(s: Sema, t: ThreadId)
    requires t < |s.threads| && ThreadOk(s.threads[t])
    requires s.threads[t].at in {TryCas, SpinCas} && s.count == s.threads[t].seen
    ensures var me, s' := s.threads[t], Perform(s, t, false);
            && s'.count == s.count - Lesser(me.max, s.count) && s'.kernel == s.kernel
            && s'.threads[t].at == Idle && s'.threads[t].result == me.got + Lesser(me.max, s.count)
  {
  }

  /** One that fails, spuriously or not, goes on while there are permits, and takes none. */
  lemma TriesAgain(s: Sema, t: ThreadId, fails: bool)
    requires t < |s.threads| && s.threads[t].at == TryCas && (s.count != s.threads[t].seen || fails)
    ensures var me, s' := s.threads[t], Perform(s, t, fails);
            && s'.count == s.count && s'.kernel == s.kernel
            && (if s.count > 0 then s'.threads[t] == me.(seen := s.count)
                else if me.blocking && me.max > 0 then s'.threads[t].at == SpinLoad && s'.threads[t].max == me.max
                else s'.threads[t].at == Idle && s'.threads[t].result == me.got)
  {
  }

  /** Whoever gets a single permit, awake or after sleeping, tries for the rest of what it asked for and no more. */
  lemma ThenGreedily(s: Sema, t: ThreadId)
    requires t < |s.threads| && ThreadOk(s.threads[t])
    requires || (s.threads[t].at == Subtract && s.count > 0) || (s.threads[t].at in {Sleep, KernelTry} && s.kernel > 0)
    ensures var me, s' := s.threads[t], Perform(s, t, false);
            && (if me.at == Subtract then s'.count == s.count - 1 && s'.kernel == s.kernel
                else s'.count == s.count && s'.kernel == s.kernel - 1)
            && (if me.asked == 1 then s'.threads[t].at == Idle && s'.threads[t].result == 1
                else s'.threads[t].at == TryLoad && s'.threads[t].got == 1 && s'.threads[t].max == me.asked - 1
                     && !s'.threads[t].blocking)
  {
  }

  /** k operations of t and of nobody else, none of which fails. */
  function Alone(s: Sema, t: ThreadId, k: nat): Sema
    requires t < |s.threads|
    ensures |Alone(s, t, k).threads| == |s.threads|
  {
    if k == 0 then s else Perform(Alone(s, t, k - 1), t, false)
  }

  /**
   * Left alone, tryWaitMany returns as many permits as it was asked for, or as many as there are; and so
   * does waitMany if there are any.
   */
  lemma LoneWait(s: Sema, t: ThreadId, max: nat, must: bool, timed: bool)
    requires t < |s.threads| && s.threads[t].at == Idle && (must && max > 0 ==> s.count > 0)
    ensures var s' := Alone(Step(s, if must then Wait(t, max, timed) else TryWait(t, max)), t, 2);
            && s'.threads[t].at == Idle && s'.threads[t].result == (if s.count > 0 then Lesser(max, s.count) else 0)
            && s'.count == s.count - s'.threads[t].result && s'.kernel == s.kernel
  {
    var s0 := Step(s, if must then Wait(t, max, timed) else TryWait(t, max));
    var s1 := Alone(s0, t, 1);
    assert Alone(s0, t, 2) == Perform(s1, t, false) && s1 == Perform(Alone(s0, t, 0), t, false);
    if s.count > 0 { assert s1.threads[t].at == TryCas && s1.threads[t].max == max && s1.threads[t].got == 0; }
    else { assert s1.threads[t].at == Idle; }
  }

  /** If there are none, waitMany spins as often as it should and then goes to sleep, counted. */
  lemma LoneSleeper(s: Sema, t: ThreadId, max: nat, timed: bool)
    requires t < |s.threads| && s.threads[t].at == Idle && max > 0 && s.count <= 0
    ensures var s' := Alone(Step(s, Wait(t, max, timed)), t, SPINS + 2);
            s'.threads[t].at == Sleep && s'.threads[t].max == max && s'.count == s.count - 1 && s'.kernel == s.kernel
  {
    var s0 := Step(s, Wait(t, max, timed));
    var s1 := Alone(s0, t, 1);
    assert s1 == Perform(Alone(s0, t, 0), t, false);
    assert s1.threads[t].at == SpinLoad && s1.threads[t].spin == SPINS && s1.threads[t].max == max && s1.count == s.count;
    SpinsDown(s1, t, SPINS);
    AloneTwice(s0, t, 1, SPINS);
    assert Alone(s0, t, SPINS + 2) == Perform(Alone(s0, t, SPINS + 1), t, false);
  }

  lemma {:induction false} SpinsDown(s: Sema, t: ThreadId, n: nat)
    requires t < |s.threads| && s.threads[t].at == SpinLoad && s.count <= 0 && 0 < n <= s.threads[t].spin
    ensures var s' := Alone(s, t, n);
            && s'.count == s.count && s'.kernel == s.kernel
            && s'.threads[t] == if n < s.threads[t].spin then s.threads[t].(spin := s.threads[t].spin - n)
                                else s.threads[t].(at := Subtract, spin := 0)
  {
    if n > 1 { SpinsDown(s, t, n - 1); } else { assert Alone(s, t, 0) == s; }
  }

  lemma {:induction false} AloneTwice(s: Sema, t: ThreadId, j: nat, k: nat)
    requires t < |s.threads|
    ensures Alone(Alone(s, t, j), t, k) == Alone(s, t, j + k)
  {
    if k > 0 { AloneTwice(s, t, j, k - 1); }
  }

  /** signal adds n permits and wakes as many sleepers as the count was short of, n at most. */
  lemma LoneSignal(s: Sema, t: ThreadId, n: nat) returns (wake: nat)
    requires t < |s.threads| && s.threads[t].at == Idle
    ensures wake == if s.count < 0 then Lesser(n, -s.count) else 0
    ensures var s' := Alone(Step(s, Signal(t, n)), t, 1 + wake);
            s'.threads[t].at == Idle && s'.count == s.count + n && s'.kernel == s.kernel + wake
  {
    wake := if s.count < 0 then Lesser(n, -s.count) else 0;
    Adds(s, t, n);
    AllPosted(Step(s, Signal(t, n)), Perform(Step(s, Signal(t, n)), t, false), t, wake);
  }

  lemma AllPosted(s0: Sema, s: Sema, t: ThreadId, wake: nat)
    requires t < |s0.threads| == |s.threads| && s == Perform(s0, t, false)
    requires if wake > 0 then s.threads[t].at == Post && s.threads[t].amount == wake else s.threads[t].at == Idle
    ensures var s' := Alone(s0, t, 1 + wake);
            s'.threads[t].at == Idle && s'.count == s.count && s'.kernel == s.kernel + wake
  {
    AloneOnce(s0, t);
    AloneTwice(s0, t, 1, wake);
    if wake > 0 { PostsAll(s, t, wake); } else { assert Alone(s, t, 0) == s; }
  }

  lemma Adds(s: Sema, t: ThreadId, n: nat)
    requires t < |s.threads| && s.threads[t].at == Idle
    ensures var wake, s' := if s.count < 0 then Lesser(n, -s.count) else 0, Perform(Step(s, Signal(t, n)), t, false);
            && s'.count == s.count + n && s'.kernel == s.kernel
            && (if wake > 0 then s'.threads[t].at == Post && s'.threads[t].amount == wake else s'.threads[t].at == Idle)
  {
  }

  lemma AloneOnce(s: Sema, t: ThreadId)
    requires t < |s.threads|
    ensures Alone(s, t, 1) == Perform(s, t, false)
  {
    assert Alone(s, t, 0) == s;
  }

  lemma {:induction false} PostsAll(s: Sema, t: ThreadId, n: nat)
    requires t < |s.threads| && s.threads[t].at == Post && 0 < n <= s.threads[t].amount
    ensures var s' := Alone(s, t, n);
            && s'.count == s.count && s'.kernel == s.kernel + n
            && s'.threads[t] == if n < s.threads[t].amount then s.threads[t].(amount := s.threads[t].amount - n)
                                else s.threads[t].(at := Idle, amount := 0)
  {
    if n > 1 { PostsAll(s, t, n - 1); } else { assert Alone(s, t, 0) == s; }
  }
}
