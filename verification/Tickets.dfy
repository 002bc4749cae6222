/**
 * Optimistic dequeue tickets of an implicit producer
 * (deflect/moodycamel/concurrentqueue.h, ImplicitProducer::dequeue and dequeue_bulk).
 *
 * The four counters and what was loaded from them are kept unbounded here; the program stores them
 * modulo 2^64. Adding loses nothing by that; differences and comparisons are taken on words (`Sub`,
 * `Word`), as the program does. One producer publishes elements, any number of consumers compete.
 */
module Tickets {
  import opened Common
  import opened Modular

  const HALF: nat := 0x8000_0000_0000_0000
  const WORD: nat := 0x1_0000_0000_0000_0000

  function Word(x: nat): nat {
    x % WORD
  }

  function Sub(a: int, b: int): nat {
    (a - b) % WORD
  }

  /** details::circular_less_than on 64-bit words. */
  predicate CircularLess(a: nat, b: nat) {
    Sub(a, b) > HALF
  }

  function Min(a: nat, b: nat): nat {
    if a < b then a else b
  }

  datatype Label =
    | Idle
    | LoadTail | LoadOvercommit | LoadOptimistic  // the optimistic test
    | Draw                                        // dequeueOptimisticCount.fetch_add
    | Recheck                                     // the second look at tailIndex
    | PostAll                                     // nothing there: give all tickets up
    | PostRest                                    // fewer elements than tickets (bulk)
    | Claim                                       // headIndex.fetch_add
    | Claimed                                     // owns the indices [first, first + actual)

  /** A consumer: its position and its local variables. */
  datatype Consumer = Consumer(
    at: Label, bulk: bool, max: nat,
    tail: nat, overcommit: nat, desired: nat, ticket: nat, actual: nat, first: nat)

  datatype Indices = Indices(
    tail: nat,        // tailIndex
    head: nat,        // headIndex
    optimistic: nat,  // dequeueOptimisticCount
    overcommit: nat,  // dequeueOvercommit
    consumers: map<ThreadId, Consumer>)

  datatype Action =
    | Publish                                          // the producer stores tailIndex + 1
    | Call(caller: ThreadId, bulk: bool, max: nat)     // an idle consumer enters dequeue(_bulk)
    | Continue(runner: ThreadId)                       // a busy consumer's next operation

  predicate Enabled(s: Indices, a: Action) {
    match a
    case Publish => true
    case Call(t, bulk, max) => t in s.consumers && s.consumers[t].at == Idle && 0 < max < WORD && (!bulk ==> max == 1)
    case Continue(t) => t in s.consumers && s.consumers[t].at != Idle
  }

  function Goto(s: Indices, t: ThreadId, me: Consumer): Indices {
    s.(consumers := s.consumers[t := me])
  }

  function Test(me: Consumer, optimistic: nat): Consumer {
    var taken := Sub(optimistic, me.overcommit);
    if me.bulk then
      var available := Sub(me.tail, taken);
      if CircularLess(0, available) then me.(at := Draw, desired := Min(available, me.max)) else me.(at := Idle)
    else
      if CircularLess(taken, Word(me.tail)) then me.(at := Draw, desired := 1) else me.(at := Idle)
  }

  function Retest(me: Consumer, tail: nat): Consumer {
    var taken := Sub(me.ticket, me.overcommit);
    if me.bulk then
      var available := Sub(tail, taken);
      if CircularLess(0, available) then
        var actual := Min(me.desired, available);
        me.(at := if actual < me.desired then PostRest else Claim, actual := actual)
      else me.(at := PostAll)
    else
      if CircularLess(taken, Word(tail)) then me.(at := Claim, actual := 1) else me.(at := PostAll)
  }

  /** One atomic operation. */
  function Step(s: Indices, a: Action): Indices {
    if !Enabled(s, a) then s else
    match a
    case Publish => s.(tail := s.tail + 1)
    case Call(t, bulk, max) => Goto(s, t, s.consumers[t].(at := LoadTail, bulk := bulk, max := max))
    case Continue(t) =>
      var me := s.consumers[t];
      match me.at
      case Idle => s
      case LoadTail => Goto(s, t, me.(at := LoadOvercommit, tail := s.tail))
      case LoadOvercommit => Goto(s, t, me.(at := LoadOptimistic, overcommit := s.overcommit))
      case LoadOptimistic => Goto(s, t, Test(me, s.optimistic))
      case Draw =>
        Goto(s.(optimistic := s.optimistic + me.desired), t, me.(at := Recheck, ticket := s.optimistic))
      case Recheck => Goto(s, t, Retest(me, s.tail))
      case PostAll => Goto(s.(overcommit := s.overcommit + me.desired), t, me.(at := Idle))
      case PostRest =>
        Goto(s.(overcommit := s.overcommit + Sub(me.desired, me.actual)), t, me.(at := Claim))
      case Claim =>
        Goto(s.(head := s.head + me.actual), t, me.(at := Claimed, first := s.head))
      case Claimed => Goto(s, t, me.(at := Idle))
  }

  // ---------------------------------------------------------------------------------------
  // Bookkeeping: the fate of every ticket ever drawn
  // ---------------------------------------------------------------------------------------

  datatype Fate =
    | Open     // drawn, not compared with the tail again yet
    | Won      // entitled to an index, headIndex not advanced yet
    | Served   // headIndex advanced for it
    | Lost     // to be given up
    | Posted   // given up in dequeueOvercommit

  datatype Ticket = Ticket(owner: ThreadId, fate: Fate)

  datatype Kind = Loser | Winner | Server | Poster

  predicate Is(k: Kind, f: Fate) {
    match k
    case Loser => f == Lost || f == Posted
    case Winner => f == Won || f == Served
    case Server => f == Served
    case Poster => f == Posted
  }

  /** How many of the first n tickets are of kind k. */
  function Num(ts: seq<Ticket>, k: Kind, n: nat): nat
    requires n <= |ts|
  {
    if n == 0 then 0 else Num(ts, k, n - 1) + if Is(k, ts[n - 1].fate) then 1 else 0
  }

  function Drawn(t: ThreadId, n: nat): seq<Ticket> {
    seq(n, i => Ticket(t, Open))
  }

  /** The tickets from lo up to hi meet their fate. */
  function Mark(ts: seq<Ticket>, lo: nat, hi: nat, fate: Fate): seq<Ticket> {
    seq(|ts|, i requires 0 <= i < |ts| => if lo <= i < hi then ts[i].(fate := fate) else ts[i])
  }

  /** The tickets from lo up to mid win, those from mid up to hi lose. */
  function Judge(ts: seq<Ticket>, lo: nat, mid: nat, hi: nat): seq<Ticket> {
    seq(|ts|, i requires 0 <= i < |ts| =>
      if lo <= i < hi then ts[i].(fate := if i < mid then Won else Lost) else ts[i])
  }

  function Wins(after: Consumer): nat {
    if after.at == PostAll then 0 else after.actual
  }

  function AuxStep(s: Indices, ts: seq<Ticket>, a: Action): seq<Ticket> {
    if !Enabled(s, a) || !a.Continue? then ts else
    var me := s.consumers[a.runner];
    match me.at
    case Draw => ts + Drawn(a.runner, me.desired)
    case Recheck =>
      Judge(ts, me.ticket, me.ticket + Wins(Retest(me, s.tail)), me.ticket + me.desired)
    case PostAll => Mark(ts, me.ticket, me.ticket + me.desired, Posted)
    case PostRest => Mark(ts, me.ticket + me.actual, me.ticket + me.desired, Posted)
    case Claim => Mark(ts, me.ticket, me.ticket + me.actual, Served)
    case _ => ts
  }

  /** These tickets of t all have this fate. */
  ghost predicate All(ts: seq<Ticket>, lo: nat, hi: nat, t: ThreadId, fate: Fate) {
    hi <= |ts| && forall i :: lo <= i < hi ==> ts[i] == Ticket(t, fate)
  }

  ghost predicate ConsumerOk(s: Indices, ts: seq<Ticket>, t: ThreadId)
    requires t in s.consumers
  {
    var me := s.consumers[t];
    0 < me.max &&
    match me.at
    case LoadOvercommit => me.tail <= s.tail
    case LoadOptimistic => me.tail <= s.tail && me.overcommit <= Num(ts, Loser, |ts|)
    case Draw => me.overcommit <= Num(ts, Loser, |ts|) && 0 < me.desired < WORD && (!me.bulk ==> me.desired == 1)
    case Recheck =>
      && 0 < me.desired < WORD
      && All(ts, me.ticket, me.ticket + me.desired, t, Open)
      && me.ticket <= |ts| && me.overcommit <= Num(ts, Loser, me.ticket)
      && (!me.bulk ==> me.desired == 1)
    case PostAll => All(ts, me.ticket, me.ticket + me.desired, t, Lost)
    case PostRest =>
      && 0 < me.actual <= me.desired < WORD
      && All(ts, me.ticket, me.ticket + me.actual, t, Won)
      && All(ts, me.ticket + me.actual, me.ticket + me.desired, t, Lost)
    case Claim => 0 < me.actual && All(ts, me.ticket, me.ticket + me.actual, t, Won)
    case _ => true
  }

  /** A ticket whose fate is not final belongs to a consumer that is dealing with it. */
  ghost predicate TicketOk(s: Indices, ts: seq<Ticket>, i: nat)
    requires i < |ts|
  {
    var t := ts[i].owner;
    match ts[i].fate
    case Open =>
      && t in s.consumers && s.consumers[t].at == Recheck
      && s.consumers[t].ticket <= i < s.consumers[t].ticket + s.consumers[t].desired
    case Won =>
      && t in s.consumers && (s.consumers[t].at == Claim || s.consumers[t].at == PostRest)
      && s.consumers[t].ticket <= i < s.consumers[t].ticket + s.consumers[t].actual
    case Lost =>
      && t in s.consumers && (s.consumers[t].at == PostAll || s.consumers[t].at == PostRest)
      && s.consumers[t].ticket <= i < s.consumers[t].ticket + s.consumers[t].desired
    case _ => true
  }

  /** The heart of the matter: a winner and the winners before it fit below the tail. */
  ghost predicate WinnerOk(s: Indices, ts: seq<Ticket>, i: nat)
    requires i < |ts|
  {
    Is(Winner, ts[i].fate) ==> i + 1 - Num(ts, Loser, i) <= s.tail
  }

  ghost predicate Inv(s: Indices, ts: seq<Ticket>) {
    && |ts| == s.optimistic
    && s.head == Num(ts, Server, |ts|)
    && s.overcommit == Num(ts, Poster, |ts|)
    && (forall t {:trigger ConsumerOk(s, ts, t)} | t in s.consumers :: ConsumerOk(s, ts, t))
    && (forall i {:trigger TicketOk(s, ts, i)} | 0 <= i < |ts| :: TicketOk(s, ts, i))
    && (forall i {:trigger WinnerOk(s, ts, i)} | 0 <= i < |ts| :: WinnerOk(s, ts, i))
  }

  predicate Close(a: int, b: int) {
    a - HALF <= b < a + HALF
  }

  /**
   * The second look of a consumer compares counters that are less than 2^63 apart: the wrapping words
   * need that. It fails only if 2^63 elements are in the queue, or as many operations come between a
   * consumer's own ones.
   */
  predicate Near(s: Indices, a: Action) {
    a.Continue? && a.runner in s.consumers && s.consumers[a.runner].at == Recheck ==>
      var me := s.consumers[a.runner];
      Close(me.ticket - me.overcommit, s.tail)
  }

  // ---------------------------------------------------------------------------------------
  // Counting
  // ---------------------------------------------------------------------------------------

  lemma {:induction false} NumPrefix(ts: seq<Ticket>, us: seq<Ticket>, k: Kind, n: nat)
    requires n <= |ts| && n <= |us| && (forall i :: 0 <= i < n ==> Is(k, ts[i].fate) == Is(k, us[i].fate))
    ensures Num(ts, k, n) == Num(us, k, n)
  {
    if n > 0 { NumPrefix(ts, us, k, n - 1); }
  }

  lemma {:induction false} NumMonotone(ts: seq<Ticket>, k: Kind, m: nat, n: nat)
    requires m <= n <= |ts|
    ensures Num(ts, k, m) <= Num(ts, k, n) <= Num(ts, k, m) + (n - m)
  {
    if m < n { NumMonotone(ts, k, m, n - 1); }
  }

  lemma {:induction false} LosersGrow(ts: seq<Ticket>, us: seq<Ticket>, n: nat)
    requires n <= |ts| && n <= |us|
    requires forall i :: 0 <= i < n && Is(Loser, ts[i].fate) ==> Is(Loser, us[i].fate)
    ensures Num(ts, Loser, n) <= Num(us, Loser, n)
  {
    if n > 0 { LosersGrow(ts, us, n - 1); }
  }

  /** Marking a range that held no ticket of kind k, with a fate of kind k, adds its length. */
  lemma {:induction false} NumMark(ts: seq<Ticket>, lo: nat, hi: nat, fate: Fate, k: Kind, n: nat)
    requires lo <= hi && n <= |ts| && Is(k, fate)
    requires forall i :: lo <= i < hi && i < |ts| ==> !Is(k, ts[i].fate)
    ensures Num(Mark(ts, lo, hi, fate), k, n) ==
            Num(ts, k, n) + (if n <= lo then 0 else if n <= hi then n - lo else hi - lo)
  {
    if n > 0 { NumMark(ts, lo, hi, fate, k, n - 1); }
  }

  lemma {:induction false} WinnersAndLosers(ts: seq<Ticket>, n: nat)
    requires n <= |ts|
    ensures Num(ts, Winner, n) + Num(ts, Loser, n) <= n
    ensures Num(ts, Server, n) <= Num(ts, Winner, n)
    ensures Num(ts, Poster, n) <= Num(ts, Loser, n)
  {
    if n > 0 { WinnersAndLosers(ts, n - 1); }
  }

  /** If every winner fits below the tail, all winners together do. */
  lemma {:induction false} WinnersFit(s: Indices, ts: seq<Ticket>, n: nat)
    requires n <= |ts| && (forall i :: 0 <= i < n ==> WinnerOk(s, ts, i))
    ensures Num(ts, Winner, n) <= s.tail
  {
    if n > 0 {
      WinnersFit(s, ts, n - 1);
      assert WinnerOk(s, ts, n - 1);
      WinnersAndLosers(ts, n);
    }
  }

  lemma HeadBelowTail(s: Indices, ts: seq<Ticket>)
    requires Inv(s, ts)
    ensures s.head <= s.tail && s.overcommit <= s.optimistic
  {
    WinnersFit(s, ts, |ts|);
    WinnersAndLosers(ts, |ts|);
  }

  // ---------------------------------------------------------------------------------------
  // Preservation
  // ---------------------------------------------------------------------------------------

  /** An operation of t changes the fate of t's own tickets only, and never takes a loss back. */
  ghost predicate Moves(s: Indices, ts: seq<Ticket>, s': Indices, ts': seq<Ticket>, t: ThreadId) {
    && t in s.consumers && s'.consumers.Keys == s.consumers.Keys
    && (forall u | u in s.consumers && u != t :: s'.consumers[u] == s.consumers[u])
    && s.tail <= s'.tail && |ts| <= |ts'|
    && (forall i | 0 <= i < |ts| :: ts'[i].owner == ts[i].owner && (ts[i].owner != t ==> ts'[i] == ts[i]))
    && (forall i | 0 <= i < |ts| :: Is(Loser, ts[i].fate) ==> Is(Loser, ts'[i].fate))
    && (forall i | |ts| <= i < |ts'| :: ts'[i].owner == t)
  }

  lemma LosersKept(s: Indices, ts: seq<Ticket>, s': Indices, ts': seq<Ticket>, t: ThreadId, n: nat)
    requires Moves(s, ts, s', ts', t) && n <= |ts|
    ensures Num(ts, Loser, n) <= Num(ts', Loser, n) <= Num(ts', Loser, |ts'|)
  {
    LosersGrow(ts, ts', n);
    NumMonotone(ts', Loser, n, |ts'|);
  }

  lemma OtherConsumer(s: Indices, ts: seq<Ticket>, s': Indices, ts': seq<Ticket>, t: ThreadId, u: ThreadId)
    requires Moves(s, ts, s', ts', t) && u in s.consumers && u != t && ConsumerOk(s, ts, u)
    ensures ConsumerOk(s', ts', u)
  {
    LosersKept(s, ts, s', ts', t, |ts|);
    if s.consumers[u].at == Recheck { LosersKept(s, ts, s', ts', t, s.consumers[u].ticket); }
  }

  lemma Advance(s: Indices, ts: seq<Ticket>, s': Indices, ts': seq<Ticket>, t: ThreadId)
    requires Inv(s, ts) && Moves(s, ts, s', ts', t)
    requires |ts'| == s'.optimistic && s'.head == Num(ts', Server, |ts'|) && s'.overcommit == Num(ts', Poster, |ts'|)
    requires ConsumerOk(s', ts', t)
    requires forall i {:trigger TicketOk(s', ts', i)} | 0 <= i < |ts'| && ts'[i].owner == t :: TicketOk(s', ts', i)
    requires forall i {:trigger WinnerOk(s', ts', i)} | 0 <= i < |ts'| && (i < |ts| ==> !Is(Winner, ts[i].fate)) :: WinnerOk(s', ts', i)
    ensures Inv(s', ts')
  {
    forall u | u in s'.consumers ensures ConsumerOk(s', ts', u) {
      if u != t { OtherConsumer(s, ts, s', ts', t, u); }
    }
    forall i | 0 <= i < |ts'| ensures TicketOk(s', ts', i) {
      if ts'[i].owner != t { assert TicketOk(s, ts, i); }
    }
    forall i | 0 <= i < |ts'| ensures WinnerOk(s', ts', i) {
      if i < |ts| {
        assert WinnerOk(s, ts, i);
        LosersKept(s, ts, s', ts', t, i);
      }
    }
  }

  /** On the words of counters that are less than 2^63 apart the circular comparison is the ordinary one. */
  lemma CircularIsLess(a: int, b: int)
    requires Close(a, b)
    ensures CircularLess(a % WORD, b % WORD) <==> a < b
    ensures CircularLess(0, Sub(b, a % WORD)) <==> a < b
    ensures a <= b ==> Sub(b, a % WORD) == b - a
  {
    SubWords(a, b);
    SubWords(b, a);
    Residue(a - b);
    Residue(b - a);
    if a != b { SubFromZero((b - a) % WORD); }
  }

  lemma SubWords(a: int, b: int)
    ensures Sub(a % WORD, b % WORD) == Sub(a, b % WORD) == (a - b) % WORD
  {
    var p, q := a / WORD, b / WORD;
    assert a % WORD - b % WORD == (a - b) + (q - p) * WORD && a - b % WORD == (a - b) + q * WORD;
    AddMultiple(a - b, q - p, WORD);
    AddMultiple(a - b, q, WORD);
  }

  lemma Residue(d: int)
    requires 0 <= d + HALF && d <= HALF
    ensures d % WORD == if d >= 0 then d else d + WORD
  {
    if d < 0 { AddMultiple(d, 1, WORD); }
  }

  lemma SubFromZero(x: nat)
    requires 0 < x < WORD
    ensures Sub(0, x) == WORD - x
  {
    AddMultiple(0 - (x as int), 1, WORD);
  }

  /** Loads, and the two tests that draw nothing. */
  lemma LookInv(s: Indices, ts: seq<Ticket>, a: Action)
    requires Inv(s, ts) && Enabled(s, a) && !a.Publish?
    requires a.Call? || s.consumers[a.runner].at in {LoadTail, LoadOvercommit, LoadOptimistic, Claimed}
    ensures Inv(Step(s, a), AuxStep(s, ts, a))
  {
    var t := if a.Call? then a.caller else a.runner;
    var s' := Step(s, a);
    assert ConsumerOk(s, ts, t);
    HeadBelowTail(s, ts);
    WinnersAndLosers(ts, |ts|);
    forall i | 0 <= i < |ts| && ts[i].owner == t ensures TicketOk(s', ts, i) { assert TicketOk(s, ts, i); }
    forall i | 0 <= i < |ts| && !Is(Winner, ts[i].fate) ensures WinnerOk(s', ts, i) {}
    Advance(s, ts, s', ts, t);
  }

  lemma DrawInv(s: Indices, ts: seq<Ticket>, t: ThreadId)
    requires Inv(s, ts) && t in s.consumers && s.consumers[t].at == Draw
    ensures Inv(Step(s, Continue(t)), AuxStep(s, ts, Continue(t)))
  {
    var s', ts' := Step(s, Continue(t)), AuxStep(s, ts, Continue(t));
    var me := s.consumers[t];
    assert ConsumerOk(s, ts, t);
    OpenTickets(ts, t, me.desired);
    forall i | 0 <= i < |ts'| && ts'[i].owner == t ensures TicketOk(s', ts', i) {
      if i < |ts| { assert TicketOk(s, ts, i); }
    }
    Advance(s, ts, s', ts', t);
  }

  /** Tickets just drawn count for nobody yet. */
  lemma OpenTickets(ts: seq<Ticket>, t: ThreadId, n: nat)
    ensures var ts' := ts + Drawn(t, n);
            forall k :: Num(ts', k, |ts'|) == Num(ts', k, |ts|) == Num(ts, k, |ts|)
  {
    var ts' := ts + Drawn(t, n);
    forall k ensures Num(ts', k, |ts'|) == Num(ts', k, |ts|) == Num(ts, k, |ts|) {
      NumPrefix(ts, ts', k, |ts|);
      OpenAdds(ts', |ts|, k);
    }
  }

  lemma {:induction false} OpenAdds(ts: seq<Ticket>, n: nat, k: Kind)
    requires n <= |ts| && forall i :: n <= i < |ts| ==> ts[i].fate == Open
    ensures Num(ts, k, |ts|) == Num(ts, k, n)
  {
    if n < |ts| {
      OpenAdds(ts[..|ts| - 1], n, k);
      NumPrefix(ts, ts[..|ts| - 1], k, n);
      NumPrefix(ts, ts[..|ts| - 1], k, |ts| - 1);
    }
  }

  /** The second look grants as many tickets as fit below the tail, counting the overcommit read before. */
  lemma RetestGrants(me: Consumer, tail: nat)
    requires Close(me.ticket - me.overcommit, tail) && 0 < me.desired && (!me.bulk ==> me.desired == 1)
    ensures var after := Retest(me, tail);
            && after == me.(at := after.at, actual := after.actual)
            && (after.at == PostAll || after.at == PostRest || after.at == Claim)
            && (after.at == PostAll ==> after.actual == me.actual)
            && (after.at != PostAll ==>
                  0 < after.actual <= me.desired && me.ticket + after.actual <= tail + me.overcommit)
            && (after.at == Claim ==> after.actual == me.desired)
  {
    CircularIsLess(me.ticket - me.overcommit, tail);
  }

  lemma RecheckInv(s: Indices, ts: seq<Ticket>, t: ThreadId)
    requires Inv(s, ts) && Near(s, Continue(t)) && t in s.consumers && s.consumers[t].at == Recheck
    ensures Inv(Step(s, Continue(t)), AuxStep(s, ts, Continue(t)))
  {
    var me := s.consumers[t];
    assert ConsumerOk(s, ts, t);
    RetestGrants(me, s.tail);
    JudgeInv(s, ts, t, Retest(me, s.tail));
    RecheckEffect(s, ts, t);
  }

  lemma RecheckEffect(s: Indices, ts: seq<Ticket>, t: ThreadId)
    requires t in s.consumers && s.consumers[t].at == Recheck
    ensures var me' := Retest(s.consumers[t], s.tail);
            && Step(s, Continue(t)) == Goto(s, t, me')
            && AuxStep(s, ts, Continue(t)) ==
               Judge(ts, s.consumers[t].ticket, s.consumers[t].ticket + Wins(me'),
                     s.consumers[t].ticket + s.consumers[t].desired)
  {
  }

  lemma JudgeInv(s: Indices, ts: seq<Ticket>, t: ThreadId, me': Consumer)
    requires Inv(s, ts) && t in s.consumers && s.consumers[t].at == Recheck
    requires me' == s.consumers[t].(at := me'.at, actual := me'.actual)
    requires me'.at == PostAll || me'.at == PostRest || me'.at == Claim
    requires me'.at != PostAll ==> 0 < me'.actual <= me'.desired && me'.ticket + me'.actual <= s.tail + me'.overcommit
    requires me'.at == Claim ==> me'.actual == me'.desired
    ensures Inv(Goto(s, t, me'), Judge(ts, me'.ticket, me'.ticket + Wins(me'), me'.ticket + me'.desired))
  {
    var s', ts' := Goto(s, t, me'), Judge(ts, me'.ticket, me'.ticket + Wins(me'), me'.ticket + me'.desired);
    assert ConsumerOk(s, ts, t);
    JudgedConsumer(s, ts, t, me');
    NumPrefix(ts, ts', Server, |ts|);
    NumPrefix(ts, ts', Poster, |ts|);
    forall i | 0 <= i < |ts'| && ts'[i].owner == t ensures TicketOk(s', ts', i) {
      assert TicketOk(s, ts, i);
      JudgedTicket(s, ts, t, me', i);
    }
    forall i | 0 <= i < |ts'| && !Is(Winner, ts[i].fate) ensures WinnerOk(s', ts', i) {
      if Is(Winner, ts'[i].fate) { WinnerFits(ts, ts', me'.ticket, i); }
    }
    Advance(s, ts, s', ts', t);
  }

  lemma JudgedConsumer(s: Indices, ts: seq<Ticket>, t: ThreadId, me': Consumer)
    requires t in s.consumers && s.consumers[t].at == Recheck && ConsumerOk(s, ts, t)
    requires me' == s.consumers[t].(at := me'.at, actual := me'.actual)
    requires me'.at == PostAll || me'.at == PostRest || me'.at == Claim
    requires me'.at != PostAll ==> 0 < me'.actual <= me'.desired
    requires me'.at == Claim ==> me'.actual == me'.desired
    ensures var s', ts' := Goto(s, t, me'), Judge(ts, me'.ticket, me'.ticket + Wins(me'), me'.ticket + me'.desired);
            Moves(s, ts, s', ts', t) && ConsumerOk(s', ts', t)
            && forall i :: 0 <= i < |ts| ==> Is(Server, ts[i].fate) == Is(Server, ts'[i].fate)
                                             && Is(Poster, ts[i].fate) == Is(Poster, ts'[i].fate)
  {
  }

  lemma JudgedTicket(s: Indices, ts: seq<Ticket>, t: ThreadId, me': Consumer, i: nat)
    requires t in s.consumers && s.consumers[t].at == Recheck && i < |ts| && ts[i].owner == t && TicketOk(s, ts, i)
    requires me' == s.consumers[t].(at := me'.at, actual := me'.actual)
    requires me'.at == PostAll || me'.at == PostRest || (me'.at == Claim && me'.actual == me'.desired)
    ensures TicketOk(Goto(s, t, me'), Judge(ts, me'.ticket, me'.ticket + Wins(me'), me'.ticket + me'.desired), i)
  {
  }

  /** The losers counted before the tickets were drawn precede every one of them. */
  lemma WinnerFits(ts: seq<Ticket>, ts': seq<Ticket>, lo: nat, i: nat)
    requires lo <= i < |ts| == |ts'| && forall j :: 0 <= j < lo ==> ts'[j] == ts[j]
    ensures Num(ts, Loser, lo) <= Num(ts', Loser, i)
  {
    LosersGrow(ts, ts', lo);
    NumMonotone(ts', Loser, lo, i);
  }

  lemma PostInv(s: Indices, ts: seq<Ticket>, t: ThreadId)
    requires Inv(s, ts) && t in s.consumers && s.consumers[t].at in {PostAll, PostRest}
    ensures Inv(Step(s, Continue(t)), AuxStep(s, ts, Continue(t)))
  {
    var me := s.consumers[t];
    assert ConsumerOk(s, ts, t);
    if me.at == PostAll {
      GiveUpInv(s, ts, t, me.ticket, me.(at := Idle));
    } else {
      GiveUpInv(s, ts, t, me.ticket + me.actual, me.(at := Claim));
    }
  }

  lemma GiveUpInv(s: Indices, ts: seq<Ticket>, t: ThreadId, lo: nat, me': Consumer)
    requires Inv(s, ts) && t in s.consumers
    requires var me := s.consumers[t];
             if me.at == PostAll then lo == me.ticket && me' == me.(at := Idle)
             else me.at == PostRest && lo == me.ticket + me.actual && me' == me.(at := Claim)
    requires lo <= me'.ticket + me'.desired
    ensures Inv(Goto(s.(overcommit := s.overcommit + me'.ticket + me'.desired - lo), t, me'),
                Mark(ts, lo, me'.ticket + me'.desired, Posted))
  {
    var hi := me'.ticket + me'.desired;
    var s', ts' := Goto(s.(overcommit := s.overcommit + hi - lo), t, me'), Mark(ts, lo, hi, Posted);
    assert ConsumerOk(s, ts, t);
    GivenUpConsumer(s, ts, s', t, lo, me');
    NumMark(ts, lo, hi, Posted, Poster, |ts|);
    NumPrefix(ts, ts', Server, |ts|);
    GivenUpTickets(s, ts, s', t, lo, me');
    Advance(s, ts, s', ts', t);
  }

  lemma GivenUpConsumer(s: Indices, ts: seq<Ticket>, s': Indices, t: ThreadId, lo: nat, me': Consumer)
    requires t in s.consumers && ConsumerOk(s, ts, t)
    requires var me := s.consumers[t];
             if me.at == PostAll then lo == me.ticket && me' == me.(at := Idle)
             else me.at == PostRest && lo == me.ticket + me.actual && me' == me.(at := Claim)
    requires s'.consumers == s.consumers[t := me'] && s'.tail == s.tail
    ensures var hi := me'.ticket + me'.desired; var ts' := Mark(ts, lo, hi, Posted);
            && Moves(s, ts, s', ts', t) && ConsumerOk(s', ts', t)
            && All(ts, lo, hi, t, Lost)
            && forall i :: 0 <= i < |ts| ==> Is(Server, ts[i].fate) == Is(Server, ts'[i].fate)
  {
  }

  lemma GivenUpTickets(s: Indices, ts: seq<Ticket>, s': Indices, t: ThreadId, lo: nat, me': Consumer)
    requires t in s.consumers && ConsumerOk(s, ts, t)
    requires var me := s.consumers[t];
             if me.at == PostAll then lo == me.ticket && me' == me.(at := Idle)
             else me.at == PostRest && lo == me.ticket + me.actual && me' == me.(at := Claim)
    requires s'.consumers == s.consumers[t := me']
    requires forall i {:trigger TicketOk(s, ts, i)} | 0 <= i < |ts| :: TicketOk(s, ts, i)
    ensures var ts' := Mark(ts, lo, me'.ticket + me'.desired, Posted);
            && (forall i {:trigger TicketOk(s', ts', i)} | 0 <= i < |ts'| && ts'[i].owner == t :: TicketOk(s', ts', i))
            && (forall i {:trigger WinnerOk(s', ts', i)} | 0 <= i < |ts'| && !Is(Winner, ts[i].fate) :: WinnerOk(s', ts', i))
  {
    var ts' := Mark(ts, lo, me'.ticket + me'.desired, Posted);
    forall i | 0 <= i < |ts'| && ts'[i].owner == t ensures TicketOk(s', ts', i) {
      assert TicketOk(s, ts, i);
      GivenUpTicket(s, ts, s', t, lo, i);
    }
    forall i | 0 <= i < |ts'| && !Is(Winner, ts[i].fate) ensures WinnerOk(s', ts', i) {}
  }

  lemma GivenUpTicket(s: Indices, ts: seq<Ticket>, s': Indices, t: ThreadId, lo: nat, i: nat)
    requires t in s.consumers && i < |ts| && ts[i].owner == t && TicketOk(s, ts, i)
    requires t in s'.consumers && var me, me' := s.consumers[t], s'.consumers[t];
             if me.at == PostAll then lo == me.ticket && me' == me.(at := Idle)
             else me.at == PostRest && lo == me.ticket + me.actual && me' == me.(at := Claim)
                  && All(ts, me.ticket, lo, t, Won)
    ensures TicketOk(s', Mark(ts, lo, s.consumers[t].ticket + s.consumers[t].desired, Posted), i)
  {
  }

  lemma ClaimInv(s: Indices, ts: seq<Ticket>, t: ThreadId)
    requires Inv(s, ts) && t in s.consumers && s.consumers[t].at == Claim
    ensures Inv(Step(s, Continue(t)), AuxStep(s, ts, Continue(t)))
  {
    var s', ts' := Step(s, Continue(t)), AuxStep(s, ts, Continue(t));
    var me := s.consumers[t];
    assert ConsumerOk(s, ts, t);
    NumMark(ts, me.ticket, me.ticket + me.actual, Served, Server, |ts|);
    NumPrefix(ts, ts', Poster, |ts|);
    forall i | 0 <= i < |ts'| && ts'[i].owner == t ensures TicketOk(s', ts', i) { assert TicketOk(s, ts, i); }
    forall i | 0 <= i < |ts'| && !Is(Winner, ts[i].fate) ensures WinnerOk(s', ts', i) {}
    Advance(s, ts, s', ts', t);
  }

  lemma PublishInv(s: Indices, ts: seq<Ticket>)
    requires Inv(s, ts)
    ensures Inv(Step(s, Publish), ts)
  {
    var s' := Step(s, Publish);
    forall t | t in s'.consumers ensures ConsumerOk(s', ts, t) { assert ConsumerOk(s, ts, t); }
    forall i | 0 <= i < |ts| ensures TicketOk(s', ts, i) { assert TicketOk(s, ts, i); }
    forall i | 0 <= i < |ts| ensures WinnerOk(s', ts, i) { assert WinnerOk(s, ts, i); }
  }

  lemma StepInv(s: Indices, ts: seq<Ticket>, a: Action)
    requires Inv(s, ts) && Near(s, a)
    ensures Inv(Step(s, a), AuxStep(s, ts, a))
  {
    if Enabled(s, a) {
      match a {
        case Publish => PublishInv(s, ts);
        case Call(_, _, _) => LookInv(s, ts, a);
        case Continue(t) =>
          match s.consumers[t].at {
            case Draw => DrawInv(s, ts, t);
            case Recheck => RecheckInv(s, ts, t);
            case PostAll => PostInv(s, ts, t);
            case PostRest => PostInv(s, ts, t);
            case Claim => ClaimInv(s, ts, t);
            case _ => LookInv(s, ts, a);
          }
      }
    }
  }

  // ---------------------------------------------------------------------------------------
  // Whole runs
  // ---------------------------------------------------------------------------------------

  const IDLE := Consumer(Idle, false, 1, 0, 0, 0, 0, 0, 0)

  function Init(threads: set<ThreadId>): Indices {
    Indices(0, 0, 0, 0, map t | t in threads :: IDLE)
  }

  function Run(threads: set<ThreadId>, steps: seq<Action>): Indices {
    if steps == [] then Init(threads) else Step(Run(threads, steps[..|steps| - 1]), steps[|steps| - 1])
  }

  function Fates(threads: set<ThreadId>, steps: seq<Action>): seq<Ticket> {
    if steps == [] then []
    else
      var before := steps[..|steps| - 1];
      AuxStep(Run(threads, before), Fates(threads, before), steps[|steps| - 1])
  }

  /** All second looks of the run compare counters less than 2^63 apart. */
  predicate Timely(threads: set<ThreadId>, steps: seq<Action>) {
    steps == [] ||
    (Timely(threads, steps[..|steps| - 1]) && Near(Run(threads, steps[..|steps| - 1]), steps[|steps| - 1]))
  }

  /** The index range a step claims, if any. */
  function NewClaim(s: Indices, a: Action): seq<(nat, nat)> {
    if Enabled(s, a) && a.Continue? && s.consumers[a.runner].at == Claim
    then [(s.head, s.consumers[a.runner].actual)] else []
  }

  /** The index ranges claimed so far, in the order of the claims. */
  function Claims(threads: set<ThreadId>, steps: seq<Action>): seq<(nat, nat)> {
    if steps == [] then []
    else
      var before := steps[..|steps| - 1];
      Claims(threads, before) + NewClaim(Run(threads, before), steps[|steps| - 1])
  }

  lemma {:induction false} RunInv(threads: set<ThreadId>, steps: seq<Action>)
    requires Timely(threads, steps)
    ensures Inv(Run(threads, steps), Fates(threads, steps))
  {
    if steps != [] {
      RunInv(threads, steps[..|steps| - 1]);
      StepInv(Run(threads, steps[..|steps| - 1]), Fates(threads, steps[..|steps| - 1]), steps[|steps| - 1]);
    }
  }

  /** For example, every run with fewer than 2^63 elements and tickets in all is such a run. */
  lemma {:induction false} FewAreTimely(threads: set<ThreadId>, steps: seq<Action>)
    requires Run(threads, steps).tail < HALF && Run(threads, steps).optimistic < HALF
    ensures Timely(threads, steps)
  {
    if steps != [] {
      var before := steps[..|steps| - 1];
      FewAreTimely(threads, before);
      RunInv(threads, before);
      FewAreNear(Run(threads, before), Fates(threads, before), steps[|steps| - 1]);
    }
  }

  lemma FewAreNear(s: Indices, ts: seq<Ticket>, a: Action)
    requires Inv(s, ts) && s.tail < HALF && s.optimistic < HALF
    ensures Near(s, a)
  {
    if a.Continue? && a.runner in s.consumers && s.consumers[a.runner].at == Recheck {
      assert ConsumerOk(s, ts, a.runner);
      WinnersAndLosers(ts, s.consumers[a.runner].ticket);
    }
  }

  /** Main theorem: however single and bulk consumers interleave, the head never overtakes the tail. */
  lemma NeverOverrun(threads: set<ThreadId>, steps: seq<Action>)
    requires Timely(threads, steps)
    ensures Run(threads, steps).head <= Run(threads, steps).tail
  {
    RunInv(threads, steps);
    HeadBelowTail(Run(threads, steps), Fates(threads, steps));
  }

  /** An index about to be claimed lies below the tail already. */
  lemma ClaimFits(threads: set<ThreadId>, steps: seq<Action>, t: ThreadId)
    requires Timely(threads, steps)
    requires t in Run(threads, steps).consumers && Run(threads, steps).consumers[t].at == Claim
    ensures Run(threads, steps).head + Run(threads, steps).consumers[t].actual <= Run(threads, steps).tail
  {
    RunInv(threads, steps);
    var s, ts := Run(threads, steps), Fates(threads, steps);
    ClaimInv(s, ts, t);
    HeadBelowTail(Step(s, Continue(t)), AuxStep(s, ts, Continue(t)));
  }

  /** claims cut [0, end) into consecutive ranges. */
  ghost predicate Consecutive(claims: seq<(nat, nat)>, end: nat) {
    if claims == [] then end == 0
    else
      var last := claims[|claims| - 1];
      last.0 + last.1 == end && Consecutive(claims[..|claims| - 1], last.0)
  }

  /** Every index below the head was claimed exactly once, in increasing order. */
  lemma {:induction false} ClaimedInOrder(threads: set<ThreadId>, steps: seq<Action>)
    requires Timely(threads, steps)
    ensures Consecutive(Claims(threads, steps), Run(threads, steps).head)
  {
    if steps != [] {
      var before := steps[..|steps| - 1];
      ClaimedInOrder(threads, before);
      RunInv(threads, before);
      HeadBelowTail(Run(threads, before), Fates(threads, before));
      ClaimExtends(Run(threads, before), Claims(threads, before), steps[|steps| - 1]);
    }
  }

  lemma ClaimExtends(s: Indices, claims: seq<(nat, nat)>, a: Action)
    requires Consecutive(claims, s.head)
    ensures Consecutive(claims + NewClaim(s, a), Step(s, a).head)
  {
    var more := claims + NewClaim(s, a);
    if NewClaim(s, a) != [] {
      assert more[..|more| - 1] == claims;
    } else {
      assert more == claims;
    }
  }

  /** Once all consumers are idle every ticket is accounted for: nothing is left behind. */
  lemma NothingLeftBehind(threads: set<ThreadId>, steps: seq<Action>)
    requires Timely(threads, steps)
    requires forall t | t in Run(threads, steps).consumers :: Run(threads, steps).consumers[t].at == Idle
    ensures var s := Run(threads, steps); s.optimistic - s.overcommit == s.head
  {
    RunInv(threads, steps);
    AllFinal(Run(threads, steps), Fates(threads, steps), Run(threads, steps).optimistic);
  }

  lemma {:induction false} AllFinal(s: Indices, ts: seq<Ticket>, n: nat)
    requires Inv(s, ts) && n <= |ts| && forall t | t in s.consumers :: s.consumers[t].at == Idle
    ensures Num(ts, Server, n) + Num(ts, Poster, n) == n
  {
    if n > 0 {
      AllFinal(s, ts, n - 1);
      assert TicketOk(s, ts, n - 1);
    }
  }

  // ---------------------------------------------------------------------------------------
  // What a dequeue gets
  // ---------------------------------------------------------------------------------------

  /** The optimistic test lets a consumer draw exactly if, by what it has loaded, elements are left; and for how many. */
  lemma TestExact(s: Indices, t: ThreadId)
    requires t in s.consumers && s.consumers[t].at == LoadOptimistic
    requires Close(s.optimistic - s.consumers[t].overcommit, s.consumers[t].tail)
    ensures var me, s' := s.consumers[t], Step(s, Continue(t));
            var left := me.tail - (s.optimistic - me.overcommit);
            && t in s'.consumers
            && (if left <= 0 then s'.consumers[t].at == Idle
                else s'.consumers[t].at == Draw
                     && s'.consumers[t].desired == if !me.bulk then 1 else if left < me.max then left else me.max)
  {
    CircularIsLess(s.optimistic - s.consumers[t].overcommit, s.consumers[t].tail);
  }

  /** So does the second look with the tickets drawn: it grants what is left, up to the number of tickets. */
  lemma RecheckExact(s: Indices, ts: seq<Ticket>, t: ThreadId)
    requires Inv(s, ts) && t in s.consumers && s.consumers[t].at == Recheck && Near(s, Continue(t))
    ensures var me, s' := s.consumers[t], Step(s, Continue(t));
            var left := s.tail - (me.ticket - me.overcommit);
            && t in s'.consumers
            && (if left <= 0 then s'.consumers[t].at == PostAll
                else if left < me.desired then s'.consumers[t].at == PostRest && s'.consumers[t].actual == left
                else s'.consumers[t].at == Claim && s'.consumers[t].actual == me.desired)
  {
    assert ConsumerOk(s, ts, t);
    CircularIsLess(s.consumers[t].ticket - s.consumers[t].overcommit, s.tail);
  }

  function Next3(s: Indices, t: ThreadId): Indices {
    Step(Step(Step(s, Continue(t)), Continue(t)), Continue(t))
  }

  /**
   * A lone dequeue starting from a moment when all consumers are idle takes as many of the next indices as
   * it may and as there are, in one piece, and moves the head past them; it finds nothing, and changes
   * nothing, exactly if there is nothing. That pins the bulk dequeue and the single one alike.
   */
  lemma LoneDequeue(s: Indices, ts: seq<Ticket>, t: ThreadId, bulk: bool, max: nat)
    requires Inv(s, ts) && s.tail - s.head < HALF && Enabled(s, Call(t, bulk, max))
    requires forall u | u in s.consumers :: s.consumers[u].at == Idle
    ensures var tested := Next3(Step(s, Call(t, bulk, max)), t);
            if s.head >= s.tail then
              tested == s.(consumers := tested.consumers) && t in tested.consumers && tested.consumers[t].at == Idle
            else
              var done, n := Next3(tested, t), if max < s.tail - s.head then max else s.tail - s.head;
              && done == s.(head := s.head + n, optimistic := s.optimistic + n, consumers := done.consumers)
              && t in done.consumers && done.consumers[t].at == Claimed
              && done.consumers[t].first == s.head && done.consumers[t].actual == n
  {
    AllFinal(s, ts, |ts|);
    HeadBelowTail(s, ts);
    LoneTest(s, t, bulk, max);
    if s.head < s.tail {
      var n := if max < s.tail - s.head then max else s.tail - s.head;
      LoneClaim(s, Next3(Step(s, Call(t, bulk, max)), t), t, n);
    }
  }

  lemma LoneTest(s: Indices, t: ThreadId, bulk: bool, max: nat)
    requires s.tail - s.head < HALF && Enabled(s, Call(t, bulk, max))
    requires s.overcommit + s.head == s.optimistic && s.head <= s.tail
    ensures var tested := Next3(Step(s, Call(t, bulk, max)), t);
            && tested == s.(consumers := tested.consumers) && t in tested.consumers
            && tested.consumers[t].at == (if s.head < s.tail then Draw else Idle)
            && tested.consumers[t].overcommit == s.overcommit && tested.consumers[t].bulk == bulk
            && (s.head < s.tail ==>
                  tested.consumers[t].desired == if max < s.tail - s.head then max else s.tail - s.head)
  {
    var s1 := Step(s, Call(t, bulk, max));
    var s2 := Step(s1, Continue(t));
    var s3 := Step(s2, Continue(t));
    assert s3.consumers[t].at == LoadOptimistic && s3.consumers[t].tail == s.tail && s3.consumers[t].max == max
           && s3.consumers[t].overcommit == s.overcommit && s3.consumers[t].bulk == bulk;
    TestExact(s3, t);
  }

  lemma LoneClaim(s: Indices, tested: Indices, t: ThreadId, n: nat)
    requires s.tail - s.head < HALF && s.overcommit + s.head == s.optimistic && 0 < n <= s.tail - s.head
    requires tested == s.(consumers := tested.consumers) && t in tested.consumers
    requires tested.consumers[t].at == Draw && (!tested.consumers[t].bulk ==> n == 1)
    requires tested.consumers[t].overcommit == s.overcommit && tested.consumers[t].desired == n
    ensures var done := Next3(tested, t);
            && done == s.(head := s.head + n, optimistic := s.optimistic + n, consumers := done.consumers)
            && t in done.consumers && done.consumers[t].at == Claimed
            && done.consumers[t].first == s.head && done.consumers[t].actual == n
  {
    var drawn := Step(tested, Continue(t));
    assert drawn.consumers[t].ticket == s.optimistic;
    LoneRecheck(s, drawn, t, n);
  }

  lemma LoneRecheck(s: Indices, drawn: Indices, t: ThreadId, n: nat)
    requires s.tail - s.head < HALF && s.overcommit + s.head == s.optimistic && 0 < n <= s.tail - s.head
    requires drawn.tail == s.tail && t in drawn.consumers && drawn.consumers[t].at == Recheck
    requires !drawn.consumers[t].bulk ==> n == 1
    requires drawn.consumers[t].overcommit == s.overcommit && drawn.consumers[t].desired == n
    requires drawn.consumers[t].ticket == s.optimistic
    ensures var granted := Step(drawn, Continue(t));
            && granted == drawn.(consumers := granted.consumers) && t in granted.consumers
            && granted.consumers[t].at == Claim && granted.consumers[t].actual == n
  {
    CircularIsLess(s.head, s.tail);
  }
}
