/**
 * From thread to producer (deflect/moodycamel/concurrentqueue.h, get_or_add_implicit_producer): a
 * chain of open-addressing hash tables that grows while threads look themselves up.
 *
 * One step is one atomic operation of one thread. Allocation succeeds, and threads do not exit, so
 * that producers are not recycled; identifiers are the indices of the threads.
 */
module ProducerTable {
  import opened Common
  import opened Modular
  import opened Sums

  type ProducerId = nat

  const INITIAL_CAPACITY: nat := 32

  datatype Entry = Entry(key: Option<ThreadId>, value: Option<ProducerId>)

  type Table = seq<Entry>

  datatype Label =
    | Idle
    | Start                          // load implicitProducerHash
    | Probe                          // look for the own key, table by table
    | Count                          // implicitProducerHashCount.fetch_add
    | Decide                         // is a bigger table needed, and nobody busy making one?
    | Reload | Publish | Unlock      // inside the resize lock
    | Room                           // is there room in the table at hand?
    | PutLoad | PutCas | PutStore    // take a slot of the table at hand

  /** A thread: its position and its local variables; main and table are indices of tables, k counts probes. */
  datatype Thread = Thread(
    at: Label, main: nat, table: nat, k: nat, count: nat, value: ProducerId, result: Option<ProducerId>)

  datatype Directory = Directory(
    tables: seq<Table>,              // all tables, each one's prev being the one before; the last is current
    threads: seq<Thread>,
    hashes: seq<nat>,                // hash_thread_id of each thread
    counter: nat,                    // implicitProducerHashCount
    locked: bool,                    // implicitProducerHashResizeInProgress
    made: seq<ThreadId>)             // the thread each producer was created for

  datatype Action = Call(caller: ThreadId) | Run(runner: ThreadId)

  function Who(a: Action): ThreadId {
    if a.Call? then a.caller else a.runner
  }

  predicate Enabled(s: Directory, a: Action) {
    Who(a) < |s.threads| && (a.Call? <==> s.threads[Who(a)].at == Idle)
  }

  function TableAt(s: Directory, h: nat): Table {
    if h < |s.tables| then s.tables[h] else []
  }

  /** The k-th slot on the way of a hash; capacities are powers of two, the mask takes the remainder. */
  function Slot(hash: nat, k: nat, capacity: nat): nat {
    if capacity == 0 then 0 else (hash + k) % capacity
  }

  function EntryAt(s: Directory, h: nat, i: nat): Entry {
    if h < |s.tables| && i < |s.tables[h]| then s.tables[h][i] else Entry(None, None)
  }

  function SlotOf(s: Directory, t: ThreadId, h: nat, k: nat): nat {
    if t < |s.hashes| then Slot(s.hashes[t], k, |TableAt(s, h)|) else 0
  }

  function SetEntry(s: Directory, h: nat, i: nat, e: Entry): Directory {
    if h < |s.tables| && i < |s.tables[h]| then s.(tables := s.tables[h := s.tables[h][i := e]]) else s
  }

  /** Half of the table, and three quarters. */
  function Half(capacity: nat): nat {
    capacity / 2
  }

  function Limit(capacity: nat): nat {
    capacity / 2 + capacity / 4
  }

  /** The capacity a new table gets. */
  function Grown(capacity: nat, count: nat): (c: nat)
    requires capacity > 0
    ensures c >= capacity && count < Half(c)
    decreases 2 * count + 2 - capacity
  {
    if count < Half(capacity) then capacity else Grown(2 * capacity, count)
  }

  function Blank(n: nat): Table {
    seq(n, _ => Entry(None, None))
  }

  function Put(s: Directory, t: ThreadId, me: Thread): Directory {
    if t < |s.threads| then s.(threads := s.threads[t := me]) else s
  }

  function Perform(s: Directory, t: ThreadId): Directory
    requires t < |s.threads|
  {
    var me := s.threads[t];
    match me.at
    case Idle => s
    case Start =>
      var current := if s.tables == [] then 0 else |s.tables| - 1;
      Put(s, t, me.(at := Probe, main := current, table := current, k := 0))
    case Probe =>
      var e := EntryAt(s, me.table, SlotOf(s, t, me.table, me.k));
      Put(s, t,
        if e.key == Some(t) then
          if me.table == me.main then me.(at := Idle, result := e.value)
          else me.(at := PutLoad, k := 0, value := if e.value.Some? then e.value.value else 0)
        else if e.key == None then
          if me.table > 0 then me.(table := me.table - 1, k := 0) else me.(at := Count)
        else me.(k := me.k + 1))
    case Count => Put(s.(counter := s.counter + 1), t, me.(at := Decide, count := s.counter + 1))
    case Decide =>
      if me.count >= Half(|TableAt(s, me.main)|) && !s.locked then Put(s.(locked := true), t, me.(at := Reload))
      else Put(s, t, me.(at := Room))
    case Reload =>
      var current := if s.tables == [] then 0 else |s.tables| - 1;
      Put(s, t, me.(main := current, at := if me.count >= Half(|TableAt(s, current)|) then Publish else Unlock))
    case Publish =>
      var capacity := Grown(2 * |TableAt(s, me.main)| + (if TableAt(s, me.main) == [] then 1 else 0), me.count);
      Put(s.(tables := s.tables + [Blank(capacity)]), t, me.(at := Unlock, main := |s.tables|))
    case Unlock => Put(s.(locked := false), t, me.(at := Room))
    case Room =>
      if me.count < Limit(|TableAt(s, me.main)|)
      then Put(s.(made := s.made + [t]), t, me.(at := PutLoad, k := 0, value := |s.made|))
      else Put(s, t, me.(at := Decide, main := if s.tables == [] then 0 else |s.tables| - 1))
    case PutLoad =>
      var e := EntryAt(s, me.main, SlotOf(s, t, me.main, me.k));
      Put(s, t, if e.key == None then me.(at := PutCas) else me.(k := me.k + 1))
    case PutCas =>
      var i := SlotOf(s, t, me.main, me.k);
      if EntryAt(s, me.main, i).key == None
      then Put(SetEntry(s, me.main, i, Entry(Some(t), EntryAt(s, me.main, i).value)), t, me.(at := PutStore))
      else Put(s, t, me.(at := PutLoad, k := me.k + 1))
    case PutStore =>
      var i := SlotOf(s, t, me.main, me.k);
      Put(SetEntry(s, me.main, i, EntryAt(s, me.main, i).(value := Some(me.value))), t,
          me.(at := Idle, result := Some(me.value)))
  }

  function Step(s: Directory, a: Action): Directory {
    match a
    case Call(t) => if t < |s.threads| then Put(s, t, s.threads[t].(at := Start)) else s
    case Run(t) => if t < |s.threads| then Perform(s, t) else s
  }

  // ---------------------------------------------------------------------------------------
  // Bookkeeping
  // ---------------------------------------------------------------------------------------

  /** The count each thread drew, the producer it registered, and the slot it registered it in. */
  datatype Aux = Aux(ticket: seq<Option<nat>>, producer: seq<Option<ProducerId>>, home: seq<(nat, nat)>)

  function AuxStep(s: Directory, x: Aux, a: Action): Aux {
    if !a.Run? || a.runner >= |s.threads| || a.runner >= |x.ticket| || a.runner >= |x.producer| || a.runner >= |x.home|
    then x else
    var t, me := a.runner, s.threads[a.runner];
    if me.at == Count then x.(ticket := x.ticket[t := Some(s.counter + 1)])
    else if me.at == PutCas && EntryAt(s, me.main, SlotOf(s, t, me.main, me.k)).key == None then
      x.(producer := x.producer[t := Some(me.value)], home := x.home[t := (me.main, SlotOf(s, t, me.main, me.k))])
    else x
  }

  ghost predicate NoKey(table: Table, t: ThreadId) {
    forall i {:trigger table[i]} :: 0 <= i < |table| ==> table[i].key != Some(t)
  }

  /** t has no key in the tables from h on. */
  ghost predicate NoKeyFrom(s: Directory, h: int, t: ThreadId) {
    forall g {:trigger s.tables[g]} :: 0 <= g < |s.tables| && g >= h ==> NoKey(s.tables[g], t)
  }

  /** The first k slots on the way of a hash are taken. */
  ghost predicate TakenWay(table: Table, hash: nat, k: nat) {
    forall e: nat {:trigger Slot(hash, e, |table|)} :: e < k ==>
      Slot(hash, e, |table|) < |table| && table[Slot(hash, e, |table|)].key.Some?
  }

  /** How far slot i is on the way of a hash. */
  function Distance(hash: nat, i: nat, capacity: nat): nat
    requires capacity > 0
  {
    (i - hash) % capacity
  }

  ghost predicate Sized(s: Directory, x: Aux) {
    && |s.threads| == |s.hashes| == |x.ticket| == |x.producer| == |x.home|
    && 0 < |s.tables|
  }

  ghost predicate EntryOk(s: Directory, x: Aux, h: nat, i: nat)
    requires Sized(s, x) && h < |s.tables| && i < |s.tables[h]|
  {
    var e := s.tables[h][i];
    e.key.Some? ==>
      var t := e.key.value;
      && t < |s.threads| && x.ticket[t].Some? && x.ticket[t].value < Limit(|s.tables[h]|) && x.producer[t].Some?
      && (e.value == x.producer[t]
          || (s.threads[t].at == PutStore && s.threads[t].main == h && SlotOf(s, t, h, s.threads[t].k) == i))
      && TakenWay(s.tables[h], s.hashes[t], Distance(s.hashes[t], i, |s.tables[h]|))
  }

  ghost predicate DistinctKeys(table: Table) {
    forall i, j {:trigger table[i], table[j]} :: 0 <= i < j < |table| && table[i].key.Some? ==> table[i].key != table[j].key
  }

  ghost predicate TableOk(s: Directory, x: Aux, h: nat)
    requires Sized(s, x) && h < |s.tables|
  {
    && |s.tables[h]| > 0
    && DistinctKeys(s.tables[h])
    && (forall i {:trigger EntryOk(s, x, h, i)} :: 0 <= i < |s.tables[h]| ==> EntryOk(s, x, h, i))
    && (forall g {:trigger s.tables[g]} :: 0 <= g < h ==> |s.tables[g]| < |s.tables[h]|)
  }

  ghost predicate Settled(x: Aux, t: ThreadId)
    requires t < |x.ticket| && t < |x.producer|
  {
    x.ticket[t].Some? <==> x.producer[t].Some?
  }

  ghost predicate Counted(s: Directory, x: Aux, t: ThreadId)
    requires Sized(s, x) && t < |s.threads|
  {
    && x.ticket[t] == Some(s.threads[t].count) && x.producer[t].None?
    && NoKeyFrom(s, 0, t) && s.threads[t].main < |s.tables|
  }

  /** Looking for a slot for a producer, new or known. */
  ghost predicate Placing(s: Directory, x: Aux, t: ThreadId)
    requires Sized(s, x) && t < |s.threads|
  {
    var me := s.threads[t];
    && me.main < |s.tables| && me.k < |s.tables[me.main]|
    && TakenWay(s.tables[me.main], s.hashes[t], me.k)
    && NoKeyFrom(s, me.main, t)
    && x.ticket[t].Some? && x.ticket[t].value < Limit(|s.tables[me.main]|)
    && me.value < |s.made| && s.made[me.value] == t
    && (x.producer[t] == Some(me.value) || (x.producer[t].None? && NoKeyFrom(s, 0, t)))
  }

  ghost predicate ThreadOk(s: Directory, x: Aux, t: ThreadId)
    requires Sized(s, x) && t < |s.threads|
  {
    var me := s.threads[t];
    && (me.result.Some? ==> me.result == x.producer[t])
    && (x.producer[t].Some? ==>
          && x.producer[t].value < |s.made| && s.made[x.producer[t].value] == t
          && x.home[t].0 < |s.tables| && x.home[t].1 < |s.tables[x.home[t].0]|
          && s.tables[x.home[t].0][x.home[t].1].key == Some(t))
    && match me.at
       case Idle => Settled(x, t)
       case Start => Settled(x, t)
       case Probe =>
         && Settled(x, t) && me.table <= me.main < |s.tables| && me.k < |s.tables[me.table]|
         && NoKeyFrom(s, me.table + 1, t)
         && TakenWay(s.tables[me.table], s.hashes[t], me.k)
         && (forall e: nat {:trigger Slot(s.hashes[t], e, |s.tables[me.table]|)} :: e < me.k ==>
               Slot(s.hashes[t], e, |s.tables[me.table]|) < |s.tables[me.table]|
               && s.tables[me.table][Slot(s.hashes[t], e, |s.tables[me.table]|)].key != Some(t))
       case Count => x.ticket[t].None? && x.producer[t].None? && NoKeyFrom(s, 0, t) && me.main < |s.tables|
       case Decide => Counted(s, x, t)
       case Reload => Counted(s, x, t)
       case Publish => Counted(s, x, t) && me.main == |s.tables| - 1
       case Unlock => Counted(s, x, t)
       case Room => Counted(s, x, t)
       case PutLoad => Placing(s, x, t)
       case PutCas => Placing(s, x, t)
       case PutStore =>
         && me.main < |s.tables| && SlotOf(s, t, me.main, me.k) < |s.tables[me.main]|
         && s.tables[me.main][SlotOf(s, t, me.main, me.k)].key == Some(t)
         && x.producer[t] == Some(me.value) && x.ticket[t].Some?
  }

  ghost predicate TicketOk(s: Directory, x: Aux, t: ThreadId)
    requires Sized(s, x) && t < |s.threads|
  {
    x.ticket[t].Some? ==>
      && 1 <= x.ticket[t].value <= s.counter
      && forall u {:trigger x.ticket[u]} :: 0 <= u < |s.threads| && u != t ==> x.ticket[u] != x.ticket[t]
  }

  /** Inside the resize lock. */
  function InLock(th: Thread): nat {
    if th.at in {Reload, Publish, Unlock} then 1 else 0
  }

  ghost predicate Inv(s: Directory, x: Aux) {
    && Sized(s, x)
    && (forall h {:trigger TableOk(s, x, h)} :: 0 <= h < |s.tables| ==> TableOk(s, x, h))
    && (forall t {:trigger ThreadOk(s, x, t)} :: 0 <= t < |s.threads| ==> ThreadOk(s, x, t))
    && (forall t {:trigger TicketOk(s, x, t)} :: 0 <= t < |s.threads| ==> TicketOk(s, x, t))
    && Total(s.threads, InLock) == if s.locked then 1 else 0
  }

  // ---------------------------------------------------------------------------------------
  // No table is ever full
  // ---------------------------------------------------------------------------------------

  /** Distinct numbers from 1 to limit - 1 are fewer than limit. */
  lemma {:induction false} Pigeonhole(ns: seq<nat>, limit: nat)
    requires limit > 0
    requires forall i {:trigger ns[i]} :: 0 <= i < |ns| ==> 1 <= ns[i] < limit
    requires forall i, j {:trigger ns[i], ns[j]} :: 0 <= i < j < |ns| ==> ns[i] != ns[j]
    ensures |ns| < limit
  {
    if ns == [] {
    } else if k :| 0 <= k < |ns| && ns[k] == limit - 1 {
      var rest := ns[..k] + ns[k + 1..];
      assert 1 <= ns[k];
      forall i | 0 <= i < |rest| ensures 1 <= rest[i] < limit - 1 {
        var j := if i < k then i else i + 1;
        assert rest[i] == ns[j] && ns[j] != ns[k];
      }
      forall i, j | 0 <= i < j < |rest| ensures rest[i] != rest[j] {
        assert rest[i] == ns[if i < k then i else i + 1] && rest[j] == ns[if j < k then j else j + 1];
      }
      Pigeonhole(rest, limit - 1);
    } else {
      assert 1 <= ns[0] < limit;
      Pigeonhole(ns, limit - 1);
    }
  }

  /** The tickets of the keys in a table, in the order of the slots. */
  function KeyTickets(x: Aux, table: Table): seq<nat>
    requires |x.ticket| == |x.producer|
  {
    if table == [] then []
    else
      var e := table[|table| - 1];
      KeyTickets(x, table[..|table| - 1])
      + if e.key.Some? && e.key.value < |x.ticket| && x.ticket[e.key.value].Some? then [x.ticket[e.key.value].value] else []
  }

  function Keys(table: Table): nat {
    if table == [] then 0 else Keys(table[..|table| - 1]) + if table[|table| - 1].key.Some? then 1 else 0
  }

  ghost predicate GoodKeys(x: Aux, table: Table, limit: nat) {
    && (forall i {:trigger table[i]} :: 0 <= i < |table| && table[i].key.Some? ==>
          table[i].key.value < |x.ticket| && x.ticket[table[i].key.value].Some?
          && 1 <= x.ticket[table[i].key.value].value < limit)
    && DistinctKeys(table)
    && (forall t, u {:trigger x.ticket[t], x.ticket[u]} ::
          (0 <= t < |x.ticket| && 0 <= u < |x.ticket| && t != u && x.ticket[t].Some?) ==> x.ticket[t] != x.ticket[u])
  }

  lemma {:induction false} KeyTicketsGood(x: Aux, table: Table, limit: nat)
    requires |x.ticket| == |x.producer| && GoodKeys(x, table, limit)
    ensures |KeyTickets(x, table)| == Keys(table)
    ensures forall i {:trigger KeyTickets(x, table)[i]} :: 0 <= i < |KeyTickets(x, table)| ==>
              1 <= KeyTickets(x, table)[i] < limit
              && exists j :: 0 <= j < |table| && table[j].key.Some? && x.ticket[table[j].key.value] == Some(KeyTickets(x, table)[i])
    ensures forall i, j {:trigger KeyTickets(x, table)[i], KeyTickets(x, table)[j]} ::
              0 <= i < j < |KeyTickets(x, table)| ==> KeyTickets(x, table)[i] != KeyTickets(x, table)[j]
  {
    if table != [] {
      var n, front := |table| - 1, table[..|table| - 1];
      assert forall i :: 0 <= i < n ==> front[i] == table[i];
      KeyTicketsGood(x, front, limit);
      var all, some := KeyTickets(x, table), KeyTickets(x, front);
      forall i | 0 <= i < |all|
        ensures 1 <= all[i] < limit
        ensures exists j :: 0 <= j < |table| && table[j].key.Some? && x.ticket[table[j].key.value] == Some(all[i]) {
        if i < |some| {
          assert all[i] == some[i];
          var j :| 0 <= j < |front| && front[j].key.Some? && x.ticket[front[j].key.value] == Some(some[i]);
          assert table[j] == front[j];
        } else {
          assert table[n].key.Some?;
        }
      }
      forall i, j | 0 <= i < j < |all| ensures all[i] != all[j] {
        assert all[i] == some[i];
        if j == |some| {
          var m :| 0 <= m < |front| && front[m].key.Some? && x.ticket[front[m].key.value] == Some(some[i]);
          assert table[m] == front[m] && table[m].key != table[n].key;
        } else {
          assert all[j] == some[j];
        }
      }
    }
  }

  /** A table holds fewer keys than three quarters of its slots. */
  lemma FewKeys(s: Directory, x: Aux, h: nat)
    requires Inv(s, x) && h < |s.tables|
    ensures Keys(s.tables[h]) == 0 || Keys(s.tables[h]) < Limit(|s.tables[h]|)
  {
    var table, limit := s.tables[h], Limit(|s.tables[h]|);
    assert TableOk(s, x, h);
    forall i | 0 <= i < |table| && table[i].key.Some?
      ensures table[i].key.value < |x.ticket| && x.ticket[table[i].key.value].Some?
              && 1 <= x.ticket[table[i].key.value].value < limit {
      assert EntryOk(s, x, h, i);
      assert TicketOk(s, x, table[i].key.value);
    }
    forall t, u | 0 <= t < |x.ticket| && 0 <= u < |x.ticket| && t != u && x.ticket[t].Some? ensures x.ticket[t] != x.ticket[u] {
      assert TicketOk(s, x, t);
    }
    KeyTicketsGood(x, table, limit);
    if Keys(table) > 0 {
      assert 1 <= KeyTickets(x, table)[0] < limit;
      Pigeonhole(KeyTickets(x, table), limit);
    }
  }

  lemma {:induction false} AllKeys(table: Table)
    requires forall i {:trigger table[i]} :: 0 <= i < |table| ==> table[i].key.Some?
    ensures Keys(table) == |table|
  {
    if table != [] {
      assert forall i :: 0 <= i < |table| - 1 ==> table[..|table| - 1][i] == table[i];
      AllKeys(table[..|table| - 1]);
    }
  }

  /** Whatever the hash, the way through a table reaches every slot. */
  lemma WayReaches(hash: nat, i: nat, capacity: nat)
    requires i < capacity
    ensures Distance(hash, i, capacity) < capacity && Slot(hash, Distance(hash, i, capacity), capacity) == i
  {
    var d := Distance(hash, i, capacity);
    DivUnique(d, 0, d, capacity);
    Shift(d, i - hash, hash, capacity);
    DivUnique(i, 0, i, capacity);
  }

  /** So before a probe has gone all the way round it has found a free slot. */
  lemma ProbeEnds(s: Directory, x: Aux, h: nat, hash: nat, k: nat)
    requires Inv(s, x) && h < |s.tables| && k <= |s.tables[h]| && TakenWay(s.tables[h], hash, k)
    ensures k < |s.tables[h]|
  {
    var table := s.tables[h];
    assert TableOk(s, x, h);
    if k == |table| {
      forall i | 0 <= i < |table| ensures table[i].key.Some? { WayReaches(hash, i, |table|); }
      AllKeys(table);
      FewKeys(s, x, h);
    }
  }

  // ---------------------------------------------------------------------------------------
  // What a step of one thread leaves alone
  // ---------------------------------------------------------------------------------------

  /** Keys stay where they are; only t's own key may appear, and only its own values change. */
  ghost predicate Same(table: Table, table': Table, t: ThreadId) {
    && |table'| == |table|
    && forall i {:trigger table'[i]} :: 0 <= i < |table| ==>
         && (table[i].key.Some? ==> table'[i].key == table[i].key)
         && (table'[i].key != table[i].key ==> table'[i].key == Some(t))
         && (table[i].key.Some? && table[i].key != Some(t) ==> table'[i].value == table[i].value)
  }

  ghost predicate Evolves(s: Directory, x: Aux, s': Directory, x': Aux, t: ThreadId) {
    && Sized(s, x) && Sized(s', x') && t < |s.threads| == |s'.threads| && s'.hashes == s.hashes
    && s'.threads == s.threads[t := s'.threads[t]]
    && |s.tables| <= |s'.tables| && s.counter <= s'.counter
    && (forall h {:trigger s'.tables[h]} :: 0 <= h < |s.tables| ==> Same(s.tables[h], s'.tables[h], t))
    && (forall h {:trigger s'.tables[h]} :: |s.tables| <= h < |s'.tables| ==> s'.tables[h] == Blank(|s'.tables[h]|))
    && |s.made| <= |s'.made| && (forall p {:trigger s'.made[p]} :: 0 <= p < |s.made| ==> s'.made[p] == s.made[p])
    && (forall u {:trigger x'.ticket[u]} :: 0 <= u < |s.threads| && u != t ==> x'.ticket[u] == x.ticket[u])
    && (forall u {:trigger x'.producer[u]} :: 0 <= u < |s.threads| && u != t ==> x'.producer[u] == x.producer[u])
    && (forall u {:trigger x'.home[u]} :: 0 <= u < |s.threads| && u != t ==> x'.home[u] == x.home[u])
  }

  lemma WayKept(table: Table, table': Table, t: ThreadId, hash: nat, k: nat)
    requires Same(table, table', t) && TakenWay(table, hash, k)
    ensures TakenWay(table', hash, k)
  {
    forall e: nat | e < k ensures Slot(hash, e, |table'|) < |table'| && table'[Slot(hash, e, |table'|)].key.Some? {
      assert table[Slot(hash, e, |table|)].key.Some?;
    }
  }

  lemma NoKeyKept(s: Directory, x: Aux, s': Directory, x': Aux, t: ThreadId, h: int, u: ThreadId)
    requires Evolves(s, x, s', x', t) && u != t && NoKeyFrom(s, h, u)
    ensures NoKeyFrom(s', h, u)
  {
    forall g | 0 <= g < |s'.tables| && g >= h ensures NoKey(s'.tables[g], u) {
      if g < |s.tables| {
        assert NoKey(s.tables[g], u) && Same(s.tables[g], s'.tables[g], t);
        forall i | 0 <= i < |s'.tables[g]| ensures s'.tables[g][i].key != Some(u) { assert s.tables[g][i].key != Some(u); }
      }
    }
  }

  lemma OtherThread(s: Directory, x: Aux, s': Directory, x': Aux, t: ThreadId, u: ThreadId)
    requires Evolves(s, x, s', x', t) && u < |s.threads| && u != t && ThreadOk(s, x, u)
    requires s.threads[u].at == Publish ==> |s'.tables| == |s.tables|
    ensures ThreadOk(s', x', u)
  {
    var me := s.threads[u];
    assert s'.threads[u] == me && x'.ticket[u] == x.ticket[u] && x'.producer[u] == x.producer[u] && x'.home[u] == x.home[u];
    if x.producer[u].Some? {
      assert Same(s.tables[x.home[u].0], s'.tables[x.home[u].0], t);
      assert s'.made[x.producer[u].value] == u;
    }
    match me.at {
      case Idle =>
      case Start =>
      case Probe => OtherProbe(s, x, s', x', t, u);
      case PutLoad => OtherPlacing(s, x, s', x', t, u);
      case PutCas => OtherPlacing(s, x, s', x', t, u);
      case PutStore => assert Same(s.tables[me.main], s'.tables[me.main], t);
      case _ => NoKeyKept(s, x, s', x', t, 0, u);
    }
  }

  lemma OtherProbe(s: Directory, x: Aux, s': Directory, x': Aux, t: ThreadId, u: ThreadId)
    requires Evolves(s, x, s', x', t) && u < |s.threads| && u != t && ThreadOk(s, x, u) && s.threads[u].at == Probe
    ensures var me, table := s.threads[u], s'.tables[s.threads[u].table];
            && NoKeyFrom(s', me.table + 1, u) && |table| == |s.tables[me.table]|
            && TakenWay(table, s.hashes[u], me.k)
            && forall e: nat {:trigger Slot(s.hashes[u], e, |table|)} :: e < me.k ==>
                 Slot(s.hashes[u], e, |table|) < |table| && table[Slot(s.hashes[u], e, |table|)].key != Some(u)
  {
    var me := s.threads[u];
    var table, table' := s.tables[me.table], s'.tables[me.table];
    NoKeyKept(s, x, s', x', t, me.table + 1, u);
    assert Same(table, table', t);
    WayKept(table, table', t, s.hashes[u], me.k);
    forall e: nat | e < me.k
      ensures Slot(s.hashes[u], e, |table'|) < |table'| && table'[Slot(s.hashes[u], e, |table'|)].key != Some(u) {
      assert table[Slot(s.hashes[u], e, |table|)].key != Some(u);
    }
  }

  lemma OtherPlacing(s: Directory, x: Aux, s': Directory, x': Aux, t: ThreadId, u: ThreadId)
    requires Evolves(s, x, s', x', t) && u < |s.threads| && u != t && Placing(s, x, u)
    ensures Placing(s', x', u)
  {
    var me := s.threads[u];
    assert s'.threads[u] == me && x'.ticket[u] == x.ticket[u] && x'.producer[u] == x.producer[u];
    assert Same(s.tables[me.main], s'.tables[me.main], t);
    WayKept(s.tables[me.main], s'.tables[me.main], t, s.hashes[u], me.k);
    NoKeyKept(s, x, s', x', t, me.main, u);
    if x.producer[u].None? { NoKeyKept(s, x, s', x', t, 0, u); }
    assert s'.made[me.value] == u;
  }

  lemma OtherEntry(s: Directory, x: Aux, s': Directory, x': Aux, t: ThreadId, h: nat, i: nat)
    requires Evolves(s, x, s', x', t) && h < |s.tables| && i < |s.tables[h]| && EntryOk(s, x, h, i)
    requires s'.tables[h][i].key != Some(t)
    ensures EntryOk(s', x', h, i)
  {
    assert Same(s.tables[h], s'.tables[h], t);
    var e := s'.tables[h][i];
    if e.key.Some? {
      var u := e.key.value;
      assert s.tables[h][i].key == e.key && s'.threads[u] == s.threads[u];
      assert x'.ticket[u] == x.ticket[u] && x'.producer[u] == x.producer[u];
      WayKept(s.tables[h], s'.tables[h], t, s.hashes[u], Distance(s.hashes[u], i, |s.tables[h]|));
    }
  }

  /** The invariant follows from what holds of t, of t's keys, and of the new table if there is one. */
  lemma Assemble(s: Directory, x: Aux, s': Directory, x': Aux, t: ThreadId)
    requires Inv(s, x) && Evolves(s, x, s', x', t)
    requires ThreadOk(s', x', t)
    requires forall u {:trigger TicketOk(s', x', u)} :: 0 <= u < |s'.threads| ==> TicketOk(s', x', u)
    requires forall h {:trigger s'.tables[h]} :: 0 <= h < |s'.tables| ==> DistinctKeys(s'.tables[h])
    requires forall h, i {:trigger EntryOk(s', x', h, i)} ::
               0 <= h < |s'.tables| && 0 <= i < |s'.tables[h]| && s'.tables[h][i].key == Some(t) ==> EntryOk(s', x', h, i)
    requires InLock(s'.threads[t]) - InLock(s.threads[t]) == (if s'.locked then 1 else 0) - (if s.locked then 1 else 0)
    requires |s'.tables| == |s.tables| + (if s.threads[t].at == Publish then 1 else 0)
    requires s.threads[t].at == Publish ==> |s'.tables[|s.tables|]| > |s.tables[|s.tables| - 1]|
    ensures Inv(s', x')
  {
    forall u | 0 <= u < |s'.threads| ensures ThreadOk(s', x', u) {
      if u != t {
        assert ThreadOk(s, x, u);
        if s.threads[u].at == Publish && s.threads[t].at == Publish { OneInLock(s, t, u); }
        OtherThread(s, x, s', x', t, u);
      }
    }
    forall h | 0 <= h < |s'.tables| ensures TableOk(s', x', h) { TableKept(s, x, s', x', t, h); }
    TotalUpdate(s.threads, t, s'.threads[t], InLock);
  }

  lemma OneInLock(s: Directory, t: ThreadId, u: ThreadId)
    requires t < |s.threads| && u < |s.threads| && t != u && InLock(s.threads[t]) == InLock(s.threads[u]) == 1
    ensures Total(s.threads, InLock) >= 2
  {
    var idle := s.threads[t].(at := Idle);
    TotalUpdate(s.threads, t, idle, InLock);
    TotalAtLeast(s.threads[t := idle], u, InLock);
  }

  lemma TableKept(s: Directory, x: Aux, s': Directory, x': Aux, t: ThreadId, h: nat)
    requires Inv(s, x) && Evolves(s, x, s', x', t) && h < |s'.tables| && DistinctKeys(s'.tables[h])
    requires forall i {:trigger EntryOk(s', x', h, i)} ::
               0 <= i < |s'.tables[h]| && s'.tables[h][i].key == Some(t) ==> EntryOk(s', x', h, i)
    requires |s'.tables| <= |s.tables| + 1
    requires |s'.tables| > |s.tables| ==> |s'.tables[|s.tables|]| > |s.tables[|s.tables| - 1]|
    ensures TableOk(s', x', h)
  {
    if h < |s.tables| {
      assert TableOk(s, x, h) && Same(s.tables[h], s'.tables[h], t);
      forall i | 0 <= i < |s'.tables[h]| ensures EntryOk(s', x', h, i) {
        if s'.tables[h][i].key != Some(t) { OtherEntry(s, x, s', x', t, h, i); }
      }
      forall g | 0 <= g < h ensures |s'.tables[g]| < |s'.tables[h]| { assert Same(s.tables[g], s'.tables[g], t); }
    } else {
      var last := |s.tables| - 1;
      assert TableOk(s, x, last);
      forall g | 0 <= g < h ensures |s'.tables[g]| < |s'.tables[h]| {
        assert Same(s.tables[g], s'.tables[g], t);
        assert g < last ==> |s.tables[g]| < |s.tables[last]|;
      }
    }
  }

  // ---------------------------------------------------------------------------------------
  // Steps that change no table
  // ---------------------------------------------------------------------------------------

  lemma Local(s: Directory, x: Aux, s': Directory, t: ThreadId)
    requires Inv(s, x) && t < |s.threads| && s.threads[t].at != PutStore && s.threads[t].at != Publish
    requires s'.tables == s.tables && s'.hashes == s.hashes && s'.counter == s.counter && |s'.threads| == |s.threads|
    requires s'.threads == s.threads[t := s'.threads[t]]
    requires s'.made == s.made || s'.made == s.made + [t]
    requires ThreadOk(s', x, t)
    requires InLock(s'.threads[t]) - InLock(s.threads[t]) == (if s'.locked then 1 else 0) - (if s.locked then 1 else 0)
    ensures Inv(s', x)
  {
    assert Evolves(s, x, s', x, t);
    forall u | 0 <= u < |s'.threads| ensures TicketOk(s', x, u) { assert TicketOk(s, x, u); }
    forall h | 0 <= h < |s'.tables| ensures DistinctKeys(s'.tables[h]) { assert TableOk(s, x, h); }
    forall h, i | 0 <= h < |s'.tables| && 0 <= i < |s'.tables[h]| && s'.tables[h][i].key == Some(t)
      ensures EntryOk(s', x, h, i) {
      assert TableOk(s, x, h) && EntryOk(s, x, h, i);
    }
    Assemble(s, x, s', x, t);
  }

  /** A key that is not among the first k slots of its way leaves no gap at the next. */
  lemma KeyBeyond(table: Table, hash: nat, i: nat, k: nat)
    requires i < |table| && table[i].key.Some? && TakenWay(table, hash, Distance(hash, i, |table|))
    requires forall e: nat {:trigger Slot(hash, e, |table|)} :: e < k ==>
               Slot(hash, e, |table|) < |table| && table[Slot(hash, e, |table|)].key != table[i].key
    ensures Slot(hash, k, |table|) < |table| && table[Slot(hash, k, |table|)].key.Some?
  {
    var d := Distance(hash, i, |table|);
    WayReaches(hash, i, |table|);
    assert d >= k;
  }

  /** The slot before the thread is free, and the key is not on the way there: it is not in this table. */
  lemma NotHere(s: Directory, x: Aux, t: ThreadId)
    requires Inv(s, x) && t < |s.threads| && s.threads[t].at == Probe
    requires EntryAt(s, s.threads[t].table, SlotOf(s, t, s.threads[t].table, s.threads[t].k)).key == None
    ensures NoKeyFrom(s, s.threads[t].table, t)
  {
    var me := s.threads[t];
    assert ThreadOk(s, x, t);
    var table, hash := s.tables[me.table], s.hashes[t];
    assert TableOk(s, x, me.table);
    forall i | 0 <= i < |table| ensures table[i].key != Some(t) {
      if table[i].key == Some(t) {
        assert EntryOk(s, x, me.table, i);
        KeyBeyond(table, hash, i, me.k);
      }
    }
    assert NoKey(table, t);
  }

  lemma NextProbe(s: Directory, x: Aux, h: nat, hash: nat, k: nat)
    requires Inv(s, x) && h < |s.tables| && k < |s.tables[h]| && TakenWay(s.tables[h], hash, k)
    requires EntryAt(s, h, Slot(hash, k, |s.tables[h]|)).key.Some?
    ensures k + 1 < |s.tables[h]| && TakenWay(s.tables[h], hash, k + 1)
  {
    assert TakenWay(s.tables[h], hash, k + 1);
    ProbeEnds(s, x, h, hash, k + 1);
  }

  /** The key was found: in the current table, or in an older one, from where it is copied. */
  lemma FoundInv(s: Directory, x: Aux, t: ThreadId)
    requires Inv(s, x) && t < |s.threads| && s.threads[t].at == Probe
    requires EntryAt(s, s.threads[t].table, SlotOf(s, t, s.threads[t].table, s.threads[t].k)).key == Some(t)
    ensures Inv(Perform(s, t), x)
  {
    var me, s' := s.threads[t], Perform(s, t);
    var i := SlotOf(s, t, me.table, me.k);
    assert ThreadOk(s, x, t) && TableOk(s, x, me.table) && TableOk(s, x, me.main);
    assert EntryOk(s, x, me.table, i);
    if me.table < me.main {
      assert |s.tables[me.table]| < |s.tables[me.main]|;
      forall g | 0 <= g < |s'.tables| && g >= me.main ensures NoKey(s'.tables[g], t) { assert NoKey(s.tables[g], t); }
      assert Placing(s', x, t);
    }
    Local(s, x, s', t);
  }

  lemma ProbeInv(s: Directory, x: Aux, t: ThreadId)
    requires Inv(s, x) && t < |s.threads| && s.threads[t].at == Probe
    ensures Inv(Perform(s, t), x)
  {
    var me, s' := s.threads[t], Perform(s, t);
    assert ThreadOk(s, x, t) && TableOk(s, x, me.table);
    var e := EntryAt(s, me.table, SlotOf(s, t, me.table, me.k));
    if e.key == Some(t) {
      FoundInv(s, x, t);
    } else {
      if e.key == None {
        NotHere(s, x, t);
        SameNoKey(s, s', me.table, t);
        if me.table > 0 { assert TableOk(s, x, me.table - 1); }
        else { Unregistered(s, x, t); }
      } else {
        NextProbe(s, x, me.table, s.hashes[t], me.k);
        SameNoKey(s, s', me.table + 1, t);
      }
      Local(s, x, s', t);
    }
  }

  lemma SameNoKey(s: Directory, s': Directory, h: int, t: ThreadId)
    requires NoKeyFrom(s, h, t) && s'.tables == s.tables
    ensures NoKeyFrom(s', h, t)
  {
    forall g | 0 <= g < |s'.tables| && g >= h ensures NoKey(s'.tables[g], t) { assert NoKey(s.tables[g], t); }
  }

  /** A thread that has no key anywhere has never registered a producer. */
  lemma Unregistered(s: Directory, x: Aux, t: ThreadId)
    requires Inv(s, x) && t < |s.threads| && NoKeyFrom(s, 0, t)
    ensures x.producer[t].None?
  {
    assert ThreadOk(s, x, t);
    assert x.producer[t].Some? ==> NoKey(s.tables[x.home[t].0], t);
  }

  lemma NoEntries(s: Directory, x: Aux, t: ThreadId)
    requires Sized(s, x) && NoKeyFrom(s, 0, t)
    ensures forall h, i {:trigger EntryOk(s, x, h, i)} ::
              0 <= h < |s.tables| && 0 <= i < |s.tables[h]| && s.tables[h][i].key == Some(t) ==> EntryOk(s, x, h, i)
  {
    assert forall h {:trigger s.tables[h]} :: 0 <= h < |s.tables| ==> NoKey(s.tables[h], t);
  }

  lemma CountInv(s: Directory, x: Aux, t: ThreadId)
    requires Inv(s, x) && t < |s.threads| && s.threads[t].at == Count
    ensures Inv(Perform(s, t), AuxStep(s, x, Run(t)))
  {
    var s', x' := Perform(s, t), AuxStep(s, x, Run(t));
    assert ThreadOk(s, x, t);
    SameNoKey(s, s', 0, t);
    forall u | 0 <= u < |s'.threads| ensures TicketOk(s', x', u) {
      assert TicketOk(s, x, u);
      forall v | 0 <= v < |s.threads| && v != u ensures x'.ticket[u].Some? ==> x'.ticket[v] != x'.ticket[u] {
        assert TicketOk(s, x, v);
      }
    }
    forall h | 0 <= h < |s'.tables| ensures DistinctKeys(s'.tables[h]) { assert TableOk(s, x, h); }
    NoEntries(s', x', t);
    Assemble(s, x, s', x', t);
  }

  /** The operations around the resize lock, but for making a table. */
  lemma LockInv(s: Directory, x: Aux, t: ThreadId)
    requires Inv(s, x) && t < |s.threads| && s.threads[t].at in {Decide, Reload, Unlock, Room}
    ensures Inv(Perform(s, t), x)
  {
    var me, s' := s.threads[t], Perform(s, t);
    assert ThreadOk(s, x, t);
    SameNoKey(s, s', 0, t);
    if me.at == Unlock { TotalAtLeast(s.threads, t, InLock); }
    if s'.threads[t].at == PutLoad {
      assert TableOk(s, x, me.main);
      SameNoKey(s, s', me.main, t);
      assert Placing(s', x, t);
    }
    Local(s, x, s', t);
  }

  lemma PutLoadInv(s: Directory, x: Aux, t: ThreadId)
    requires Inv(s, x) && t < |s.threads|
    requires s.threads[t].at == PutLoad
             || (s.threads[t].at == PutCas
                 && EntryAt(s, s.threads[t].main, SlotOf(s, t, s.threads[t].main, s.threads[t].k)).key.Some?)
    ensures Inv(Perform(s, t), x)
  {
    var me, s' := s.threads[t], Perform(s, t);
    assert ThreadOk(s, x, t);
    if EntryAt(s, me.main, SlotOf(s, t, me.main, me.k)).key.Some? { NextProbe(s, x, me.main, s.hashes[t], me.k); }
    SameNoKey(s, s', me.main, t);
    if x.producer[t].None? { SameNoKey(s, s', 0, t); }
    assert Placing(s', x, t);
    Local(s, x, s', t);
  }

  lemma StartInv(s: Directory, x: Aux, a: Action)
    requires Inv(s, x) && Enabled(s, a) && (a.Call? || s.threads[a.runner].at == Start)
    ensures Inv(Step(s, a), x)
  {
    var t := Who(a);
    assert ThreadOk(s, x, t) && TableOk(s, x, |s.tables| - 1);
    Local(s, x, Step(s, a), t);
  }

  // ---------------------------------------------------------------------------------------
  // Steps that change a table
  // ---------------------------------------------------------------------------------------

  lemma PublishInv(s: Directory, x: Aux, t: ThreadId)
    requires Inv(s, x) && t < |s.threads| && s.threads[t].at == Publish
    ensures Inv(Perform(s, t), x)
  {
    var me, s' := s.threads[t], Perform(s, t);
    assert ThreadOk(s, x, t) && TableOk(s, x, me.main);
    forall g | 0 <= g < |s'.tables| && g >= 0 ensures NoKey(s'.tables[g], t) {
      if g < |s.tables| { assert NoKey(s.tables[g], t); }
    }
    assert Evolves(s, x, s', x, t);
    forall u | 0 <= u < |s'.threads| ensures TicketOk(s', x, u) { assert TicketOk(s, x, u); }
    forall h | 0 <= h < |s'.tables| ensures DistinctKeys(s'.tables[h]) {
      if h < |s.tables| { assert TableOk(s, x, h); }
    }
    NoEntries(s', x, t);
    Assemble(s, x, s', x, t);
  }

  /** One slot of one table changes. */
  lemma SetEvolves(s: Directory, x: Aux, s': Directory, x': Aux, t: ThreadId, h: nat, i: nat, e: Entry)
    requires Inv(s, x) && Sized(s', x') && t < |s.threads| && h < |s.tables| && i < |s.tables[h]|
    requires s'.tables == s.tables[h := s.tables[h][i := e]] && s'.hashes == s.hashes && s'.counter == s.counter
    requires |s'.threads| == |s.threads| && s'.threads == s.threads[t := s'.threads[t]] && s'.made == s.made
    requires e.key == Some(t) && (s.tables[h][i].key == None || s.tables[h][i].key == Some(t))
    requires x'.ticket == x.ticket
    requires forall u {:trigger x'.producer[u]} :: 0 <= u < |s.threads| && u != t ==> x'.producer[u] == x.producer[u]
    requires forall u {:trigger x'.home[u]} :: 0 <= u < |s.threads| && u != t ==> x'.home[u] == x.home[u]
    ensures Evolves(s, x, s', x', t) && Same(s.tables[h], s'.tables[h], t)
    ensures forall u {:trigger TicketOk(s', x', u)} :: 0 <= u < |s'.threads| ==> TicketOk(s', x', u)
  {
    forall u | 0 <= u < |s'.threads| ensures TicketOk(s', x', u) { assert TicketOk(s, x, u); }
  }

  /** A free slot is taken. */
  lemma TakeInv(s: Directory, x: Aux, t: ThreadId)
    requires Inv(s, x) && t < |s.threads| && s.threads[t].at == PutCas
    requires EntryAt(s, s.threads[t].main, SlotOf(s, t, s.threads[t].main, s.threads[t].k)).key == None
    ensures Inv(Perform(s, t), AuxStep(s, x, Run(t)))
  {
    var me, s', x' := s.threads[t], Perform(s, t), AuxStep(s, x, Run(t));
    var h, i := me.main, SlotOf(s, t, me.main, me.k);
    assert ThreadOk(s, x, t) && TableOk(s, x, h);
    SetEvolves(s, x, s', x', t, h, i, Entry(Some(t), s.tables[h][i].value));
    assert NoKey(s.tables[h], t);
    forall g | 0 <= g < |s'.tables| ensures DistinctKeys(s'.tables[g]) { assert TableOk(s, x, g); }
    forall g, j | 0 <= g < |s'.tables| && 0 <= j < |s'.tables[g]| && s'.tables[g][j].key == Some(t)
      ensures EntryOk(s', x', g, j) {
      TakenEntry(s, x, s', x', t, g, j);
    }
    Assemble(s, x, s', x', t);
  }

  lemma TakenEntry(s: Directory, x: Aux, s': Directory, x': Aux, t: ThreadId, g: nat, j: nat)
    requires Inv(s, x) && t < |s.threads| && s.threads[t].at == PutCas && Evolves(s, x, s', x', t)
    requires EntryAt(s, s.threads[t].main, SlotOf(s, t, s.threads[t].main, s.threads[t].k)).key == None
    requires s' == Perform(s, t) && x' == AuxStep(s, x, Run(t))
    requires g < |s'.tables| && j < |s'.tables[g]| && s'.tables[g][j].key == Some(t)
    ensures EntryOk(s', x', g, j)
  {
    var me := s.threads[t];
    var h, i := me.main, SlotOf(s, t, me.main, me.k);
    assert ThreadOk(s, x, t) && TableOk(s, x, g);
    assert Same(s.tables[g], s'.tables[g], t);
    if g == h && j == i {
      OwnDistance(s.hashes[t], me.k, |s.tables[h]|);
      WayKept(s.tables[h], s'.tables[h], t, s.hashes[t], me.k);
    } else {
      assert s.tables[g][j].key == Some(t);
      assert EntryOk(s, x, g, j);
      WayKept(s.tables[g], s'.tables[g], t, s.hashes[t], Distance(s.hashes[t], j, |s.tables[g]|));
    }
  }

  lemma OwnDistance(hash: nat, k: nat, capacity: nat)
    requires k < capacity
    ensures Distance(hash, Slot(hash, k, capacity), capacity) == k
  {
    var i := Slot(hash, k, capacity);
    DivUnique(i, 0, i, capacity);
    Shift(i, hash + k, 0 - hash, capacity);
    DivUnique(k, 0, k, capacity);
  }

  lemma StoreInv(s: Directory, x: Aux, t: ThreadId)
    requires Inv(s, x) && t < |s.threads| && s.threads[t].at == PutStore
    ensures Inv(Perform(s, t), x)
  {
    var me, s' := s.threads[t], Perform(s, t);
    var h, i := me.main, SlotOf(s, t, me.main, me.k);
    assert ThreadOk(s, x, t) && TableOk(s, x, h);
    SetEvolves(s, x, s', x, t, h, i, Entry(Some(t), Some(me.value)));
    forall g | 0 <= g < |s'.tables| ensures DistinctKeys(s'.tables[g]) { assert TableOk(s, x, g); }
    forall g, j | 0 <= g < |s'.tables| && 0 <= j < |s'.tables[g]| && s'.tables[g][j].key == Some(t)
      ensures EntryOk(s', x, g, j) {
      assert TableOk(s, x, g) && Same(s.tables[g], s'.tables[g], t) && s.tables[g][j].key == Some(t);
      assert EntryOk(s, x, g, j);
      WayKept(s.tables[g], s'.tables[g], t, s.hashes[t], Distance(s.hashes[t], j, |s.tables[g]|));
    }
    Assemble(s, x, s', x, t);
  }

  // ---------------------------------------------------------------------------------------
  // Runs
  // ---------------------------------------------------------------------------------------

  lemma StepInv(s: Directory, x: Aux, a: Action)
    requires Inv(s, x) && Enabled(s, a)
    ensures Inv(Step(s, a), AuxStep(s, x, a))
  {
    if a.Call? || s.threads[a.runner].at == Start { StartInv(s, x, a); return; }
    var t, me := a.runner, s.threads[a.runner];
    match me.at {
      case Probe => ProbeInv(s, x, t);
      case Count => CountInv(s, x, t);
      case Publish => PublishInv(s, x, t);
      case PutLoad => PutLoadInv(s, x, t);
      case PutCas =>
        if EntryAt(s, me.main, SlotOf(s, t, me.main, me.k)).key == None { TakeInv(s, x, t); } else { PutLoadInv(s, x, t); }
      case PutStore => StoreInv(s, x, t);
      case _ => LockInv(s, x, t);
    }
  }

  function Init(hashes: seq<nat>): Directory {
    Directory([Blank(INITIAL_CAPACITY)], seq(|hashes|, _ => Thread(Idle, 0, 0, 0, 0, 0, None)), hashes, 0, false, [])
  }

  function Execute(hashes: seq<nat>, steps: seq<Action>): Directory {
    if steps == [] then Init(hashes) else Step(Execute(hashes, steps[..|steps| - 1]), steps[|steps| - 1])
  }

  function History(hashes: seq<nat>, steps: seq<Action>): Aux {
    if steps == [] then
      Aux(seq(|hashes|, _ => None), seq(|hashes|, _ => None), seq(|hashes|, _ => (0, 0)))
    else AuxStep(Execute(hashes, steps[..|steps| - 1]), History(hashes, steps[..|steps| - 1]), steps[|steps| - 1])
  }

  ghost predicate Legal(hashes: seq<nat>, steps: seq<Action>) {
    steps == [] ||
    (Legal(hashes, steps[..|steps| - 1]) && Enabled(Execute(hashes, steps[..|steps| - 1]), steps[|steps| - 1]))
  }

  lemma {:induction false} ExecuteInv(hashes: seq<nat>, steps: seq<Action>)
    requires Legal(hashes, steps)
    ensures Inv(Execute(hashes, steps), History(hashes, steps))
  {
    if steps == [] {
      TotalZero(Init(hashes).threads, InLock);
    } else {
      ExecuteInv(hashes, steps[..|steps| - 1]);
      StepInv(Execute(hashes, steps[..|steps| - 1]), History(hashes, steps[..|steps| - 1]), steps[|steps| - 1]);
    }
  }

  /** The step that ends a call of t. */
  predicate Returns(s: Directory, t: ThreadId) {
    t < |s.threads| && s.threads[t].at != Idle && t < |Perform(s, t).threads| && Perform(s, t).threads[t].at == Idle
  }

  /**
   * Every call that returns, returns a producer, and that is the one its thread has registered, through
   * any number of resizes; and between calls the last result is still that one.
   */
  lemma FindsOwnProducer(hashes: seq<nat>, steps: seq<Action>, t: ThreadId)
    requires Legal(hashes, steps) && t < |Execute(hashes, steps).threads|
    ensures Returns(Execute(hashes, steps), t) ==>
              var s, x := Execute(hashes, steps), History(hashes, steps);
              var producers := AuxStep(s, x, Run(t)).producer;
              t < |producers| && producers[t].Some? && Step(s, Run(t)).threads[t].result == producers[t]
    ensures t < |History(hashes, steps).producer|
    ensures var r := Execute(hashes, steps).threads[t].result;
            r.Some? ==> r == History(hashes, steps).producer[t]
  {
    ExecuteInv(hashes, steps);
    assert ThreadOk(Execute(hashes, steps), History(hashes, steps), t);
    if Returns(Execute(hashes, steps), t) { ReturnsOwn(Execute(hashes, steps), History(hashes, steps), t); }
  }

  lemma ReturnsOwn(s: Directory, x: Aux, t: ThreadId)
    requires Inv(s, x) && Returns(s, t)
    ensures var producers := AuxStep(s, x, Run(t)).producer;
            t < |producers| && producers[t].Some? && Step(s, Run(t)).threads[t].result == producers[t]
  {
    assert ThreadOk(s, x, t);
    var me := s.threads[t];
    if me.at == Probe {
      assert TableOk(s, x, me.table);
      assert EntryOk(s, x, me.table, SlotOf(s, t, me.table, me.k));
    }
  }

  /** And that is always the first one: it never changes. */
  lemma RegisteredOnce(hashes: seq<nat>, steps: seq<Action>, a: Action, t: ThreadId)
    requires Legal(hashes, steps) && Enabled(Execute(hashes, steps), a) && t < |History(hashes, steps).producer|
    requires History(hashes, steps).producer[t].Some?
    ensures var x' := AuxStep(Execute(hashes, steps), History(hashes, steps), a);
            t < |x'.producer| && x'.producer[t] == History(hashes, steps).producer[t]
  {
    ExecuteInv(hashes, steps);
    assert ThreadOk(Execute(hashes, steps), History(hashes, steps), t);
  }

  /** Two threads never share a producer. */
  lemma NeverShared(hashes: seq<nat>, steps: seq<Action>, t: ThreadId, u: ThreadId)
    requires Legal(hashes, steps) && t < |Execute(hashes, steps).threads| && u < |Execute(hashes, steps).threads|
    requires Execute(hashes, steps).threads[t].result.Some?
    requires Execute(hashes, steps).threads[t].result == Execute(hashes, steps).threads[u].result
    ensures t == u
  {
    ExecuteInv(hashes, steps);
    var s, x := Execute(hashes, steps), History(hashes, steps);
    assert ThreadOk(s, x, t) && ThreadOk(s, x, u);
  }

  /** Every table keeps a quarter of its slots free, so no probing goes round for ever: it ends within one round. */
  lemma NeverFull(hashes: seq<nat>, steps: seq<Action>, h: nat)
    requires Legal(hashes, steps) && h < |Execute(hashes, steps).tables|
    ensures var table := Execute(hashes, steps).tables[h];
            Keys(table) == 0 || Keys(table) < Limit(|table|)
  {
    ExecuteInv(hashes, steps);
    FewKeys(Execute(hashes, steps), History(hashes, steps), h);
  }

  lemma ProbingEnds(hashes: seq<nat>, steps: seq<Action>, t: ThreadId)
    requires Legal(hashes, steps) && t < |Execute(hashes, steps).threads|
    ensures var s, me := Execute(hashes, steps), Execute(hashes, steps).threads[t];
            && (me.at == Probe ==> me.k < |TableAt(s, me.table)|)
            && (me.at == PutLoad || me.at == PutCas ==> me.k < |TableAt(s, me.main)|)
  {
    ExecuteInv(hashes, steps);
    assert ThreadOk(Execute(hashes, steps), History(hashes, steps), t);
  }

  // ---------------------------------------------------------------------------------------
  // Calls come to an end
  // ---------------------------------------------------------------------------------------

  /** No other thread is making a bigger table. */
  ghost predicate LockFree(s: Directory, t: ThreadId) {
    forall u {:trigger s.threads[u]} :: 0 <= u < |s.threads| && u != t ==> InLock(s.threads[u]) == 0
  }

  /** The table at hand has no room for the thread's count. */
  predicate Tight(s: Directory, me: Thread) {
    me.count >= Limit(|TableAt(s, me.main)|)
  }

  /** How far a call has still to go ... */
  function Rank(s: Directory, me: Thread): nat {
    match me.at
    case Idle => 0
    case PutLoad => 1
    case PutCas => 1
    case PutStore => 1
    case Room => if Tight(s, me) then 7 else 2
    case Unlock => if Tight(s, me) then 8 else 3
    case Publish => 4
    case Reload => 5
    case Decide => 6
    case Count => 9
    case Probe => 10
    case Start => 11
  }

  function Minus(a: nat, b: nat): nat {
    if a < b then 0 else a - b
  }

  /** ... within which it goes through the tables, ... */
  function Level(s: Directory, me: Thread): nat {
    if me.at == Probe then me.table
    else if me.at == PutLoad then 2 * Minus(|TableAt(s, me.main)|, me.k) + 2
    else if me.at == PutCas then 2 * Minus(|TableAt(s, me.main)|, me.k) + 1
    else 0
  }

  /** ... and through one table. */
  function Way(s: Directory, me: Thread): nat {
    if me.at == Probe then Minus(|TableAt(s, me.table)|, me.k) else 0
  }

  ghost predicate Nearer(s: Directory, s': Directory, t: ThreadId)
    requires t < |s.threads| && t < |s'.threads|
  {
    var me, me' := s.threads[t], s'.threads[t];
    || Rank(s', me') < Rank(s, me)
    || (Rank(s', me') == Rank(s, me)
        && (Level(s', me') < Level(s, me) || (Level(s', me') == Level(s, me) && Way(s', me') < Way(s, me))))
  }

  /** Unless another thread is making a bigger table, every operation of a call brings it nearer to its end. */
  lemma RunHelps(s: Directory, x: Aux, t: ThreadId)
    requires Inv(s, x) && t < |s.threads| && s.threads[t].at != Idle && LockFree(s, t)
    ensures |Perform(s, t).threads| == |s.threads| && Nearer(s, Perform(s, t), t) && LockFree(Perform(s, t), t)
  {
    assert ThreadOk(s, x, t);
    match s.threads[t].at {
      case Probe => ProbeHelps(s, t);
      case Decide => NotLocked(s, x, t); DecideHelps(s, t);
      case Publish => PublishHelps(s, t);
      case _ => OtherHelps(s, t);
    }
    forall u | 0 <= u < |s.threads| && u != t ensures InLock(Perform(s, t).threads[u]) == 0 {
      assert InLock(s.threads[u]) == 0;
    }
  }

  lemma NotLocked(s: Directory, x: Aux, t: ThreadId)
    requires Inv(s, x) && t < |s.threads| && LockFree(s, t) && InLock(s.threads[t]) == 0
    ensures !s.locked
  {
    forall u | 0 <= u < |s.threads| ensures InLock(s.threads[u]) == 0 { assert s.threads[u] == s.threads[u]; }
    TotalZero(s.threads, InLock);
  }

  lemma ProbeHelps(s: Directory, t: ThreadId)
    requires t < |s.threads| && s.threads[t].at == Probe && s.threads[t].k < |TableAt(s, s.threads[t].table)|
    ensures |Perform(s, t).threads| == |s.threads| && Nearer(s, Perform(s, t), t)
  {
  }

  lemma DecideHelps(s: Directory, t: ThreadId)
    requires t < |s.threads| && s.threads[t].at == Decide && !s.locked
    ensures |Perform(s, t).threads| == |s.threads| && Nearer(s, Perform(s, t), t)
  {
  }

  lemma PublishHelps(s: Directory, t: ThreadId)
    requires t < |s.threads| && s.threads[t].at == Publish
    ensures |Perform(s, t).threads| == |s.threads| && Nearer(s, Perform(s, t), t)
  {
    var s' := Perform(s, t);
    assert TableAt(s', s'.threads[t].main) == s'.tables[|s.tables|];
  }

  lemma OtherHelps(s: Directory, t: ThreadId)
    requires t < |s.threads| && s.threads[t].at in {Start, Count, Reload, Unlock, Room, PutLoad, PutCas, PutStore}
    requires s.threads[t].at in {PutLoad, PutCas} ==> s.threads[t].k < |TableAt(s, s.threads[t].main)|
    ensures |Perform(s, t).threads| == |s.threads| && Nearer(s, Perform(s, t), t)
  {
  }

  /** k operations of t and of nobody else. */
  function Alone(s: Directory, t: ThreadId, k: nat): Directory
    decreases k
  {
    if k == 0 then s else Alone(Step(s, Run(t)), t, k - 1)
  }

  lemma {:induction false} EndsFrom(s: Directory, x: Aux, t: ThreadId) returns (k: nat)
    requires Inv(s, x) && t < |s.threads| && s.threads[t].at != Idle && LockFree(s, t)
    ensures var s' := Alone(s, t, k);
            && t < |s'.threads| && s'.threads[t].at == Idle && s'.threads[t].result.Some?
            && s'.threads[t].result.value < |s'.made| && s'.made[s'.threads[t].result.value] == t
    decreases Rank(s, s.threads[t]), Level(s, s.threads[t]), Way(s, s.threads[t])
  {
    var s', x' := Step(s, Run(t)), AuxStep(s, x, Run(t));
    RunHelps(s, x, t);
    StepInv(s, x, Run(t));
    assert Alone(s', t, 0) == s';
    if s'.threads[t].at == Idle {
      k := 1;
      ReturnsOwn(s, x, t);
      assert ThreadOk(s', x', t);
    } else {
      var rest := EndsFrom(s', x', t);
      k := rest + 1;
    }
  }

  /**
   * A call that is left alone ends, whatever state the others have stopped in, unless one of them is making a
   * bigger table; and it returns a producer that was created for the calling thread.
   */
  lemma LoneCallEnds(hashes: seq<nat>, steps: seq<Action>, t: ThreadId) returns (k: nat)
    requires Legal(hashes, steps) && t < |Execute(hashes, steps).threads|
    requires Execute(hashes, steps).threads[t].at != Idle && LockFree(Execute(hashes, steps), t)
    ensures var s' := Alone(Execute(hashes, steps), t, k);
            && t < |s'.threads| && s'.threads[t].at == Idle && s'.threads[t].result.Some?
            && s'.threads[t].result.value < |s'.made| && s'.made[s'.threads[t].result.value] == t
  {
    ExecuteInv(hashes, steps);
    k := EndsFrom(Execute(hashes, steps), History(hashes, steps), t);
  }
}
