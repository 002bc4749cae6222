/**
 * The block index of an implicit producer (deflect/moodycamel/concurrentqueue.h,
 * insert_block_index_entry, rewind_block_index_tail, get_block_index_index_for_index,
 * new_block_index).
 *
 * A ring of pointers to entries (key: first index of a block; value: the block). The producer
 * inserts at the tail and doubles the ring when the next slot is in use; consumers look a block up
 * by its distance from the tail entry, possibly in a ring that was replaced meanwhile. Blocks are
 * numbered by units: unit u starts at index 32 * u, stored as a 64-bit word.
 */
module BlockIndex {
  import opened Common
  import opened Modular

  const BLOCK_SIZE: nat := 32
  const INITIAL_CAPACITY: nat := 32
  const WORD: nat := 0x1_0000_0000_0000_0000
  const INVALID_BLOCK_BASE: nat := 1
  const MAX_LEVEL: nat := 54                          // INITIAL_CAPACITY * 2^54 == WORD / BLOCK_SIZE

  type EntryId = nat
  type BlockId = nat

  function Word(x: nat): nat {
    x % WORD
  }

  function Sub(a: int, b: int): nat {
    (a - b) % WORD
  }

  datatype Entry = Entry(key: nat, value: Option<BlockId>)

  /** BlockIndexHeader. The slots of a ring never change once it is published. */
  datatype Ring = Ring(tail: nat, slots: seq<EntryId>)

  function Capacity(r: Ring): nat {
    |r.slots|
  }

  datatype ProducerLabel = Ready | Check | Grow | StoreKey | StoreTail | Decide | StoreValue | RewindTail | RewindValue

  datatype Producer = Producer(at: ProducerLabel, entry: EntryId, newTail: nat, value: Option<BlockId>)

  datatype ReaderLabel = Idle | LoadRing | LoadTail | LoadKey | Found

  /** A consumer after the blocks first..last, now at unit; ring, tail and slot are its local variables. */
  datatype Reader = Reader(at: ReaderLabel, unit: nat, last: nat, ring: nat, tail: nat, slot: nat)

  datatype Index = Index(
    rings: seq<Ring>,            // every ring ever published; the last one is current
    entries: seq<Entry>,
    next: nat,                   // the unit the producer inserts next
    producer: Producer,
    readers: map<ThreadId, Reader>)

  datatype Action =
    | Insert                                         // the producer reached the end of a block
    | Produce(ok: bool, block: BlockId)              // its next operation; ok: the allocation succeeds
    | LookUp(caller: ThreadId, first: nat, last: nat)
    | Read(runner: ThreadId)
    | Retire(entry: EntryId)                         // a consumer clears the value of an empty block

  function Cur(s: Index): Ring {
    if s.rings == [] then Ring(0, []) else s.rings[|s.rings| - 1]
  }

  function EntryAt(s: Index, e: EntryId): Entry {
    if e < |s.entries| then s.entries[e] else Entry(INVALID_BLOCK_BASE, None)
  }

  function RingAt(s: Index, h: nat): Ring {
    if h < |s.rings| then s.rings[h] else Ring(0, [])
  }

  function SlotAt(r: Ring, i: nat): EntryId {
    if i < |r.slots| then r.slots[i] else 0
  }

  /** x & (capacity - 1), the capacity being a power of two. */
  function Wrap(x: int, capacity: nat): nat {
    if capacity == 0 then 0 else x % capacity
  }

  /** offset: a signed difference divided by the unsigned BLOCK_SIZE, so the division is unsigned. */
  function SlotFor(tail: nat, index: nat, tailBase: nat, capacity: nat): nat {
    Wrap(tail + Sub(index, tailBase) / BLOCK_SIZE, capacity)
  }

  /** The entry stored for unit u holds a block. */
  ghost predicate Live(s: Index, units: seq<Option<nat>>, u: nat) {
    exists e :: Holds(s, units, e, u)
  }

  ghost predicate Holds(s: Index, units: seq<Option<nat>>, e: EntryId, u: nat) {
    e < |units| && e < |s.entries| && units[e] == Some(u) && s.entries[e].value.Some?
  }

  function SetEntry(s: Index, e: EntryId, entry: Entry): Index {
    if e < |s.entries| then s.(entries := s.entries[e := entry]) else s
  }

  function SetTail(s: Index, tail: nat): Index {
    if s.rings == [] then s
    else s.(rings := s.rings[..|s.rings| - 1] + [Cur(s).(tail := tail)])
  }

  function BiggerSlot(r: Ring, unused: EntryId, i: nat): EntryId {
    var c := Capacity(r);
    if i < c then SlotAt(r, Wrap(r.tail + 1 + i, c)) else unused + (i - c)
  }

  /** The ring new_block_index builds: the old entries from the oldest on, then fresh ones. */
  function Bigger(r: Ring, unused: EntryId): Ring {
    var c := Capacity(r);
    Ring(Wrap(c - 1, 2 * c),
         seq(2 * c, i requires 0 <= i < 2 * c => BiggerSlot(r, unused, i)))
  }

  function Fresh(n: nat): seq<Entry> {
    seq(n, _ => Entry(INVALID_BLOCK_BASE, None))
  }

  function MakeProgress(s: Index, ok: bool, block: BlockId): Index {
    var p := s.producer;
    var r := Cur(s);
    match p.at
    case Ready => s
    case Check =>
      var newTail := Wrap(r.tail + 1, Capacity(r));
      var e := SlotAt(r, newTail);
      if EntryAt(s, e).key == INVALID_BLOCK_BASE || EntryAt(s, e).value == None
      then s.(producer := p.(at := StoreKey, entry := e, newTail := newTail))
      else s.(producer := p.(at := Grow))
    case Grow =>
      // malloc fails at the latest when the table would exceed the address space
      if ok && |s.rings| <= MAX_LEVEL then
        var bigger := Bigger(r, |s.entries|);
        var newTail := Wrap(bigger.tail + 1, Capacity(bigger));
        s.(rings := s.rings + [bigger], entries := s.entries + Fresh(Capacity(r)),
           producer := p.(at := StoreKey, entry := SlotAt(bigger, newTail), newTail := newTail))
      else s.(producer := p.(at := Ready))
    case StoreKey =>
      SetEntry(s, p.entry, EntryAt(s, p.entry).(key := Word(BLOCK_SIZE * s.next))).(producer := p.(at := StoreTail))
    case StoreTail => SetTail(s, p.newTail).(next := s.next + 1, producer := p.(at := Decide))
    case Decide =>
      // requisition_block: a block to store, or none
      s.(producer := if ok then p.(at := StoreValue, value := Some(block)) else p.(at := RewindTail))
    case StoreValue =>
      SetEntry(s, p.entry, EntryAt(s, p.entry).(value := p.value)).(producer := p.(at := Ready))
    case RewindTail =>
      SetTail(s, Wrap(r.tail - 1, Capacity(r))).(next := if s.next > 0 then s.next - 1 else 0,
                                                 producer := p.(at := RewindValue))
    case RewindValue =>
      SetEntry(s, p.entry, EntryAt(s, p.entry).(value := None)).(producer := p.(at := Ready))
  }

  function Look(s: Index, t: ThreadId): Index
    requires t in s.readers
  {
    var r := s.readers[t];
    var ring := RingAt(s, r.ring);
    var r' :=
      match r.at
      case Idle => r
      case LoadRing => r.(at := LoadTail, ring := if s.rings == [] then 0 else |s.rings| - 1)
      case LoadTail => r.(at := LoadKey, tail := ring.tail)
      case LoadKey =>
        var tailBase := EntryAt(s, SlotAt(ring, r.tail)).key;
        r.(at := Found, slot := SlotFor(r.tail, Word(BLOCK_SIZE * r.unit), tailBase, Capacity(ring)))
      case Found =>
        // dequeue_bulk steps to the next slot of the ring it has
        if r.unit < r.last
        then r.(unit := r.unit + 1, slot := Wrap(r.slot + 1, Capacity(ring)))
        else r.(at := Idle);
    s.(readers := s.readers[t := r'])
  }

  /** A reader at work needs the units it has not finished with (moving on to the next is a local matter). */
  predicate Needs(r: Reader, u: nat) {
    r.at != Idle && r.unit <= u <= r.last
  }

  /** One atomic operation; units is the unit each entry was last keyed for. */
  ghost predicate Enabled(s: Index, units: seq<Option<nat>>, a: Action) {
    match a
    case Insert => s.producer.at == Ready
    case Produce(_, _) => s.producer.at != Ready
    case LookUp(t, first, last) =>
      t in s.readers && s.readers[t].at == Idle && first <= last
      && forall u :: first <= u <= last ==> Live(s, units, u)
    case Read(t) => t in s.readers && s.readers[t].at != Idle
    case Retire(e) =>
      e < |s.entries| && e < |units| && units[e].Some? && s.entries[e].value.Some?
      && forall t :: t in s.readers ==> !Needs(s.readers[t], units[e].value)
  }

  function Step(s: Index, a: Action): Index {
    match a
    case Insert => s.(producer := s.producer.(at := Check))
    case Produce(ok, block) => MakeProgress(s, ok, block)
    case LookUp(t, first, last) =>
      if t in s.readers then s.(readers := s.readers[t := Reader(LoadRing, first, last, 0, 0, 0)]) else s
    case Read(t) => if t in s.readers then Look(s, t) else s
    case Retire(e) => SetEntry(s, e, EntryAt(s, e).(value := None))
  }

  // ---------------------------------------------------------------------------------------
  // Bookkeeping
  // ---------------------------------------------------------------------------------------

  /** units: what each entry was last keyed for; shifts: the unit at slot 0 of each ring; stored: the block last stored for a unit. */
  datatype Aux = Aux(units: seq<Option<nat>>, shifts: seq<nat>, stored: map<nat, BlockId>)

  function NoUnits(n: nat): seq<Option<nat>> {
    seq(n, _ => None)
  }

  function AuxStep(s: Index, x: Aux, a: Action): Aux {
    if !a.Produce? then x else
    var c := Capacity(Cur(s));
    match s.producer.at
    case Grow =>
      if a.ok && |s.rings| <= MAX_LEVEL
      then x.(units := x.units + NoUnits(c), shifts := x.shifts + [if s.next >= c then s.next - c else 0]) else x
    case StoreKey =>
      if s.producer.entry < |x.units| then x.(units := x.units[s.producer.entry := Some(s.next)]) else x
    case StoreValue =>
      if s.producer.value.Some? && s.next > 0 then x.(stored := x.stored[s.next - 1 := s.producer.value.value]) else x
    case _ => x
  }

  /** The capacity of the h-th ring. */
  function Cap(h: nat): (c: nat)
    ensures c > 0
  {
    if h == 0 then INITIAL_CAPACITY else 2 * Cap(h - 1)
  }

  /** The slot of unit u in a ring whose slot 0 belongs to unit shift. */
  function Pos(u: int, shift: nat, c: nat): nat
    requires c > 0
  {
    (u - shift) % c
  }

  ghost predicate UnitAt(x: Aux, slots: seq<EntryId>, i: nat, u: nat) {
    i < |slots| && slots[i] < |x.units| && x.units[slots[i]] == Some(u)
  }

  /** Every slot holds an entry whose unit belongs there; replaced rings are full. */
  ghost predicate RingOk(s: Index, x: Aux, h: nat)
    requires h < |s.rings| == |x.shifts| && |x.units| == |s.entries|
  {
    var r := s.rings[h];
    && Capacity(r) == Cap(h) && r.tail < Cap(h)
    && (forall i {:trigger r.slots[i]} :: 0 <= i < Cap(h) ==> r.slots[i] < |s.entries|)
    && (forall i {:trigger r.slots[i]} :: 0 <= i < Cap(h) && x.units[r.slots[i]].Some? ==>
          Pos(x.units[r.slots[i]].value, x.shifts[h], Cap(h)) == i)
    && (h + 1 < |s.rings| ==> forall i {:trigger r.slots[i]} :: 0 <= i < Cap(h) ==> x.units[r.slots[i]].Some?)
  }

  function CurShift(s: Index, x: Aux): nat {
    if x.shifts == [] then 0 else x.shifts[|x.shifts| - 1]
  }

  /** The current ring holds the last units inserted, in order. */
  ghost predicate CurOk(s: Index, x: Aux)
    requires 0 < |s.rings| == |x.shifts| && |x.units| == |s.entries|
  {
    var r, c, shift := Cur(s), Cap(|s.rings| - 1), CurShift(s, x);
    && Capacity(r) == c
    && r.tail == Pos(s.next - 1, shift, c) && shift <= s.next
    && (forall i {:trigger r.slots[i]} :: 0 <= i < c && r.slots[i] < |x.units| && x.units[r.slots[i]].Some? ==>
          shift <= x.units[r.slots[i]].value <= s.next <= x.units[r.slots[i]].value + c)
    && (forall u {:trigger Pos(u, shift, c)} :: shift <= u < s.next < u + c ==> UnitAt(x, r.slots, Pos(u, shift, c), u))
    && (forall i, j :: 0 <= i < j < c ==> r.slots[i] != r.slots[j])
  }

  ghost predicate EntryOk(s: Index, x: Aux, e: EntryId)
    requires e < |s.entries| == |x.units|
  {
    && s.entries[e].key == (if x.units[e].Some? then Word(BLOCK_SIZE * x.units[e].value) else INVALID_BLOCK_BASE)
    && (s.entries[e].value.Some? ==>
          && x.units[e].Some? && x.units[e].value < s.next
          && x.units[e].value in x.stored && x.stored[x.units[e].value] == s.entries[e].value.value)
    && e in Cur(s).slots
  }

  /** The producer's entry is the one it inserted last, still without a block. */
  ghost predicate LastKeyed(s: Index, x: Aux)
    requires |x.units| == |s.entries|
  {
    var e := s.producer.entry;
    s.next > 0 && e < |s.entries| && s.entries[e].value == None && x.units[e] == Some(s.next - 1)
  }

  /** What taking the last insertion back relies on: the ring is as it was before, but for that entry. */
  ghost predicate Undoable(s: Index, x: Aux)
    requires 0 < |s.rings| == |x.shifts| && |x.units| == |s.entries|
  {
    var r, c, shift := Cur(s), Cap(|s.rings| - 1), CurShift(s, x);
    && (forall i {:trigger r.slots[i]} :: 0 <= i < |r.slots| && r.slots[i] < |x.units| && x.units[r.slots[i]].Some? ==>
          x.units[r.slots[i]].value < s.next)
    && (shift <= s.next - c ==> UnitAt(x, r.slots, Pos(s.next - c, shift, c), s.next - c))
  }

  ghost predicate ProducerOk(s: Index, x: Aux)
    requires 0 < |s.rings| == |x.shifts| && |x.units| == |s.entries|
  {
    var p, r, c := s.producer, Cur(s), Cap(|s.rings| - 1);
    var at := Pos(s.next, CurShift(s, x), c);
    match p.at
    case Ready => true
    case Check => true
    case Grow => c <= s.next && UnitAt(x, r.slots, at, s.next - c)
    case StoreKey =>
      p.newTail == at && at < |r.slots| && p.entry == r.slots[at] && p.entry < |s.entries| && s.entries[p.entry].value == None
    case StoreTail =>
      && p.newTail == at && at < |r.slots| && p.entry == r.slots[at] && p.entry < |s.entries|
      && s.entries[p.entry].value == None && x.units[p.entry] == Some(s.next)
    case Decide => LastKeyed(s, x) && Undoable(s, x)
    case StoreValue => LastKeyed(s, x) && p.value.Some?
    case RewindTail => LastKeyed(s, x) && Undoable(s, x)
    case RewindValue => p.entry < |s.entries| && s.entries[p.entry].value == None
  }

  /** Ring h leads to the entry of unit u. */
  ghost predicate Leads(s: Index, x: Aux, h: nat, u: nat) {
    && h < |s.rings| && h < |x.shifts| && |s.rings[h].slots| == Cap(h)
    && UnitAt(x, s.rings[h].slots, Pos(u, x.shifts[h], Cap(h)), u)
    && s.rings[h].slots[Pos(u, x.shifts[h], Cap(h))] < |s.entries|
    && s.entries[s.rings[h].slots[Pos(u, x.shifts[h], Cap(h))]].value.Some?
  }

  ghost predicate ReaderOk(s: Index, x: Aux, t: ThreadId)
    requires t in s.readers
  {
    var r := s.readers[t];
    && (r.at != Idle ==> r.unit <= r.last)
    && (r.at == LoadRing ==> forall u {:trigger Live(s, x.units, u)} :: r.unit <= u <= r.last ==> Live(s, x.units, u))
    && (r.at in {LoadTail, LoadKey, Found} ==>
          forall u {:trigger Leads(s, x, r.ring, u)} :: r.unit <= u <= r.last ==> Leads(s, x, r.ring, u))
    && (r.at == LoadKey ==>
          && r.ring < |s.rings| && r.tail < |s.rings[r.ring].slots|
          && s.rings[r.ring].slots[r.tail] < |x.units| && x.units[s.rings[r.ring].slots[r.tail]].Some?)
    && (r.at == Found ==> r.ring < |x.shifts| && r.slot == Pos(r.unit, x.shifts[r.ring], Cap(r.ring)))
  }

  ghost predicate Inv(s: Index, x: Aux) {
    && 0 < |s.rings| == |x.shifts| <= MAX_LEVEL + 1
    && |x.units| == |s.entries|
    && CurOk(s, x)
    && ProducerOk(s, x)
    && (forall h {:trigger RingOk(s, x, h)} :: 0 <= h < |s.rings| ==> RingOk(s, x, h))
    && (forall e {:trigger EntryOk(s, x, e)} :: 0 <= e < |s.entries| ==> EntryOk(s, x, e))
    && (forall t {:trigger ReaderOk(s, x, t)} | t in s.readers :: ReaderOk(s, x, t))
  }

  // ---------------------------------------------------------------------------------------
  // Arithmetic
  // ---------------------------------------------------------------------------------------

  function Power2(n: nat): nat {
    if n == 0 then 1 else 2 * Power2(n - 1)
  }

  /** A smaller ring's capacity divides a bigger one's. */
  lemma {:induction false} CapDivides(g: nat, h: nat)
    requires g <= h
    ensures Cap(h) == Power2(h - g) * Cap(g)
  {
    if g < h { CapDivides(g, h - 1); }
  }

  lemma LargestCap(top: nat)
    requires top == MAX_LEVEL
    ensures Cap(top) * BLOCK_SIZE == WORD
  {
    CapDivides(0, top);
    assert Power2(6) == 0x40;
    PowerIs(6, 6, 0x40, 0x40, 0x1000);
    PowerIs(12, 6, 0x1000, 0x40, 0x4_0000);
    PowerIs(18, 18, 0x4_0000, 0x4_0000, 0x10_0000_0000);
    PowerIs(36, 18, 0x10_0000_0000, 0x4_0000, 0x40_0000_0000_0000);
  }

  lemma PowerIs(a: nat, b: nat, x: nat, y: nat, xy: nat)
    requires Power2(a) == x && Power2(b) == y && x * y == xy
    ensures Power2(a + b) == xy
  {
    PowerSum(a, b);
  }

  lemma {:induction false} PowerSum(a: nat, b: nat)
    ensures Power2(a + b) == Power2(a) * Power2(b)
  {
    if b > 0 { PowerSum(a, b - 1); }
  }

  /** The slot computed on wrapping words, by a division that ignores the sign, is the right one. */
  lemma SlotIsRight(h: nat, shift: nat, u: nat, k: nat)
    requires h <= MAX_LEVEL
    ensures SlotFor(Pos(k, shift, Cap(h)), Word(BLOCK_SIZE * u), Word(BLOCK_SIZE * k), Cap(h)) == Pos(u, shift, Cap(h))
  {
    WrappedSlot(h, MAX_LEVEL, shift, u, k);
  }

  lemma WrappedSlot(h: nat, top: nat, shift: nat, u: nat, k: nat)
    requires h <= top == MAX_LEVEL
    ensures SlotFor(Pos(k, shift, Cap(h)), Word(BLOCK_SIZE * u), Word(BLOCK_SIZE * k), Cap(h)) == Pos(u, shift, Cap(h))
  {
    var c, a, b := Cap(h), Word(BLOCK_SIZE * u), Word(BLOCK_SIZE * k);
    assert (Pos(k, shift, c) + Sub(a, b) / BLOCK_SIZE) % c == Pos(u, shift, c) by {
      LargestCap(top);
      CapDivides(h, top);
      UnsignedDistance(u, k, Cap(top));
      Distance(u, k, shift, c, Cap(top), Power2(top - h));
    }
  }

  lemma Distance(u: nat, k: nat, shift: nat, c: nat, m: nat, j: nat)
    requires 0 < c && 0 < m && m == j * c
    ensures (Pos(k, shift, c) + (u - k) % m) % c == Pos(u, shift, c)
  {
    var p, d := Pos(k, shift, c), (u - k) % m;
    DivUnique(d, 0, d, m);
    Congruent(u - k, d, m, c, j);
    Shift(u - k, d, k - shift, c);
    DivUnique(p, 0, p, c);
    Shift(p, k - shift, d, c);
  }

  /** The quotient of the wrapped difference is the distance in units, modulo the largest capacity. */
  lemma UnsignedDistance(u: nat, k: nat, m: nat)
    requires m > 0 && m * BLOCK_SIZE == WORD
    ensures Sub(Word(BLOCK_SIZE * u), Word(BLOCK_SIZE * k)) / BLOCK_SIZE == (u - k) % m
  {
    var a, b := BLOCK_SIZE * u, BLOCK_SIZE * k;
    assert Sub(Word(a), Word(b)) == (a - b) % WORD by {
      var q := b / WORD - a / WORD;
      assert Word(a) - Word(b) == (a - b) + q * WORD;
      AddMultiple(a - b, q, WORD);
    }
    var q, r := (u - k) / m, (u - k) % m;
    assert a - b == BLOCK_SIZE * (q * m + r) == q * WORD + BLOCK_SIZE * r;
    DivUnique(a - b, q, BLOCK_SIZE * r, WORD);
  }

  lemma NotInvalid(u: nat)
    ensures Word(BLOCK_SIZE * u) != INVALID_BLOCK_BASE
  {
    var q := BLOCK_SIZE * u / WORD;
    assert Word(BLOCK_SIZE * u) == BLOCK_SIZE * (u - q * (WORD / BLOCK_SIZE));
  }

  lemma PosRange(u: int, shift: nat, c: nat)
    requires shift <= u < shift + c
    ensures Pos(u, shift, c) == u - shift
  {
    DivUnique(u - shift, 0, u - shift, c);
  }

  /** Two units of one slot are a multiple of the capacity apart. */
  lemma SameSlot(u: nat, v: nat, shift: nat, c: nat)
    requires c > 0 && Pos(u, shift, c) == Pos(v, shift, c) && u <= v
    ensures v - u < c ==> u == v
    ensures v - u == c || v - u < c || v - u > c
    ensures (v - u) % c == 0
  {
    Shift(v - shift, u - shift, shift - u, c);
    DivUnique(0, 0, 0, c);
    if v - u < c { DivUnique(v - u, 0, v - u, c); }
  }

  lemma NextSlot(u: int, amount: int, shift: nat, c: nat)
    requires c > 0
    ensures Wrap(Pos(u, shift, c) + amount, c) == Pos(u + amount, shift, c)
  {
    var p := Pos(u, shift, c);
    DivUnique(p, 0, p, c);
    Shift(p, u - shift, amount, c);
  }

  // ---------------------------------------------------------------------------------------
  // Readers
  // ---------------------------------------------------------------------------------------

  /** Published slots and keyed entries stay; an entry with a block keeps its unit and a block. */
  ghost predicate Keeps(s: Index, x: Aux, s': Index, x': Aux) {
    && s'.readers == s.readers
    && |s.rings| == |x.shifts| <= |x'.shifts| == |s'.rings| && |s.entries| == |x.units| <= |x'.units| == |s'.entries|
    && (forall h {:trigger s'.rings[h]} :: 0 <= h < |s.rings| ==> s'.rings[h].slots == s.rings[h].slots)
    && (forall h {:trigger x'.shifts[h]} :: 0 <= h < |s.rings| ==> x'.shifts[h] == x.shifts[h])
    && (forall e {:trigger x'.units[e]} :: 0 <= e < |x.units| && x.units[e].Some? ==> x'.units[e].Some?)
    && (forall e {:trigger s'.entries[e]} :: 0 <= e < |s.entries| && s.entries[e].value.Some? ==>
          s'.entries[e].value.Some? && x'.units[e] == x.units[e])
  }

  lemma ReaderKept(s: Index, x: Aux, s': Index, x': Aux, t: ThreadId)
    requires Keeps(s, x, s', x') && t in s.readers && ReaderOk(s, x, t)
    ensures ReaderOk(s', x', t)
  {
    var r := s.readers[t];
    forall u | r.unit <= u <= r.last && r.at == LoadRing ensures Live(s', x'.units, u) {
      assert Live(s, x.units, u);
      var e: EntryId :| Holds(s, x.units, e, u);
      assert s'.entries[e].value.Some?;
      assert Holds(s', x'.units, e, u);
    }
    forall u | r.unit <= u <= r.last && r.at in {LoadTail, LoadKey, Found} ensures Leads(s', x', r.ring, u) {
      assert Leads(s, x, r.ring, u);
      var e := s.rings[r.ring].slots[Pos(u, x.shifts[r.ring], Cap(r.ring))];
      assert s'.rings[r.ring].slots == s.rings[r.ring].slots && x'.shifts[r.ring] == x.shifts[r.ring];
      assert s'.entries[e].value.Some?;
    }
    if r.at == LoadKey {
      assert s'.rings[r.ring].slots == s.rings[r.ring].slots;
      assert x'.units[s.rings[r.ring].slots[r.tail]].Some?;
    }
  }

  /** A unit with a block is found through the current ring. */
  lemma LiveLeads(s: Index, x: Aux, u: nat)
    requires Inv(s, x) && Live(s, x.units, u)
    ensures Leads(s, x, |s.rings| - 1, u)
  {
    var h := |s.rings| - 1;
    var e: EntryId :| Holds(s, x.units, e, u);
    assert EntryOk(s, x, e) && RingOk(s, x, h);
    var i :| 0 <= i < |s.rings[h].slots| && s.rings[h].slots[i] == e;
    assert Pos(u, x.shifts[h], Cap(h)) == i;
  }

  /** No two entries have the same unit. */
  lemma OneEntry(s: Index, x: Aux, e: EntryId, f: EntryId)
    requires Inv(s, x) && e < |x.units| && f < |x.units| && x.units[e].Some? && x.units[e] == x.units[f]
    ensures e == f
  {
    var h := |s.rings| - 1;
    assert EntryOk(s, x, e) && EntryOk(s, x, f) && RingOk(s, x, h);
    var i :| 0 <= i < |s.rings[h].slots| && s.rings[h].slots[i] == e;
    var j :| 0 <= j < |s.rings[h].slots| && s.rings[h].slots[j] == f;
  }

  // ---------------------------------------------------------------------------------------
  // The producer's operations
  // ---------------------------------------------------------------------------------------

  /** Everything the producer's operations share: what they must show of rings and entries gives the rest. */
  lemma Assemble(s: Index, x: Aux, s': Index, x': Aux)
    requires Inv(s, x) && Keeps(s, x, s', x')
    requires |x'.shifts| <= MAX_LEVEL + 1
    requires CurOk(s', x') && ProducerOk(s', x')
    requires forall h {:trigger RingOk(s', x', h)} :: 0 <= h < |s'.rings| ==> RingOk(s', x', h)
    requires forall e {:trigger EntryOk(s', x', e)} :: 0 <= e < |s'.entries| ==> EntryOk(s', x', e)
    ensures Inv(s', x')
  {
    forall t | t in s'.readers ensures ReaderOk(s', x', t) {
      assert ReaderOk(s, x, t);
      ReaderKept(s, x, s', x', t);
    }
  }

  /** A step that only moves the producer on. */
  lemma MoveOn(s: Index, x: Aux, p: Producer)
    requires Inv(s, x) && ProducerOk(s.(producer := p), x)
    ensures Inv(s.(producer := p), x)
  {
    var s' := s.(producer := p);
    forall h | 0 <= h < |s'.rings| ensures RingOk(s', x, h) { assert RingOk(s, x, h); }
    forall e | 0 <= e < |s'.entries| ensures EntryOk(s', x, e) { assert EntryOk(s, x, e); }
    assert CurOk(s', x);
    Assemble(s, x, s', x);
  }

  /** The slot after the tail: unused, or emptied, or holding the unit a whole capacity back. */
  lemma NextEntry(s: Index, x: Aux)
    requires Inv(s, x)
    ensures var r, c, at := Cur(s), Cap(|s.rings| - 1), Pos(s.next, CurShift(s, x), Cap(|s.rings| - 1));
            && Wrap(r.tail + 1, c) == at < c == |r.slots| && r.slots[at] < |s.entries|
            && (s.entries[r.slots[at]].key == INVALID_BLOCK_BASE ==> s.entries[r.slots[at]].value == None)
            && (s.entries[r.slots[at]].value.Some? ==> c <= s.next && x.units[r.slots[at]] == Some(s.next - c))
  {
    var r, shift, h := Cur(s), CurShift(s, x), |s.rings| - 1;
    var c, at := Cap(h), Pos(s.next, shift, Cap(h));
    assert RingOk(s, x, h);
    NextSlot(s.next - 1, 1, shift, c);
    var e := r.slots[at];
    assert EntryOk(s, x, e);
    if s.entries[e].value.Some? {
      var k := x.units[e].value;
      NotInvalid(k);
      assert Pos(k, shift, c) == at;
      SameSlot(k, s.next, shift, c);
    }
  }

  lemma CheckInv(s: Index, x: Aux, ok: bool, b: BlockId)
    requires Inv(s, x) && s.producer.at == Check
    ensures Inv(MakeProgress(s, ok, b), x)
  {
    NextEntry(s, x);
    assert RingOk(s, x, |s.rings| - 1);
    MoveOn(s, x, MakeProgress(s, ok, b).producer);
  }

  lemma StoreKeyInv(s: Index, x: Aux, ok: bool, b: BlockId)
    requires Inv(s, x) && s.producer.at == StoreKey
    ensures Inv(MakeProgress(s, ok, b), AuxStep(s, x, Produce(ok, b)))
  {
    var s', x' := MakeProgress(s, ok, b), AuxStep(s, x, Produce(ok, b));
    var p := s.producer;
    assert s'.entries == s.entries[p.entry := Entry(Word(BLOCK_SIZE * s.next), None)];
    assert x'.units == x.units[p.entry := Some(s.next)];
    forall h | 0 <= h < |s'.rings| ensures RingOk(s', x', h) { StoreKeyRing(s, x, s', x', h); }
    forall e | 0 <= e < |s'.entries| ensures EntryOk(s', x', e) { assert EntryOk(s, x, e); }
    StoreKeyCur(s, x, s', x');
    Assemble(s, x, s', x');
  }

  ghost predicate Keys(s: Index, x: Aux, s': Index, x': Aux) {
    && Inv(s, x) && s.producer.at == StoreKey
    && s'.rings == s.rings && s'.next == s.next && |s'.entries| == |s.entries|
    && x'.shifts == x.shifts && x'.units == x.units[s.producer.entry := Some(s.next)]
  }

  lemma StoreKeyRing(s: Index, x: Aux, s': Index, x': Aux, h: nat)
    requires Keys(s, x, s', x') && h < |s.rings|
    ensures RingOk(s', x', h)
  {
    assert RingOk(s, x, h);
    var e := s.producer.entry;
    forall i | 0 <= i < Cap(h) && s.rings[h].slots[i] == e ensures Pos(s.next, x.shifts[h], Cap(h)) == i {
      NextBelongs(s, x, h, i);
    }
  }

  /** Wherever the producer's entry hangs, the unit it is about to get belongs in that slot. */
  lemma NextBelongs(s: Index, x: Aux, h: nat, i: nat)
    requires Inv(s, x) && s.producer.at == StoreKey
    requires h < |s.rings| && i < |s.rings[h].slots| && s.rings[h].slots[i] == s.producer.entry
    ensures Pos(s.next, x.shifts[h], Cap(h)) == i
  {
    var g, e := |s.rings| - 1, s.producer.entry;
    assert RingOk(s, x, h) && RingOk(s, x, g);
    if h < g {
      assert x.units[s.rings[h].slots[i]].Some?;
      var k := x.units[e].value;
      assert Cur(s).slots[s.producer.newTail] == e;
      SameUnitSlot(k, s.next, x.shifts[h], CurShift(s, x), h, g);
    }
  }

  /** Units that share a slot of a ring share one in every smaller ring. */
  lemma SameUnitSlot(u: nat, v: nat, small: nat, big: nat, h: nat, g: nat)
    requires h <= g && Pos(u, big, Cap(g)) == Pos(v, big, Cap(g))
    ensures Pos(u, small, Cap(h)) == Pos(v, small, Cap(h))
  {
    CapDivides(h, g);
    SameResidue(u, v, big, Cap(g));
    Congruent(u, v, Cap(g), Cap(h), Power2(g - h));
    Shift(u, v, 0 - small, Cap(h));
  }

  lemma SameResidue(u: nat, v: nat, shift: nat, c: nat)
    requires c > 0 && Pos(u, shift, c) == Pos(v, shift, c)
    ensures u % c == v % c
  {
    Shift(u - shift, v - shift, shift, c);
  }

  lemma StoreKeyCur(s: Index, x: Aux, s': Index, x': Aux)
    requires Keys(s, x, s', x') && s'.producer == s.producer.(at := StoreTail)
    requires s'.entries[s.producer.entry].value == None
    ensures CurOk(s', x') && ProducerOk(s', x')
  {
    var p, r, shift := s.producer, Cur(s), CurShift(s, x);
    var c := Cap(|s.rings| - 1);
    forall u | shift <= u < s.next < u + c ensures UnitAt(x', r.slots, Pos(u, shift, c), u) {
      assert UnitAt(x, r.slots, Pos(u, shift, c), u);
      SameSlotFar(u, s.next, shift, c);
    }
    forall i | 0 <= i < c && r.slots[i] < |x'.units| && x'.units[r.slots[i]].Some?
      ensures shift <= x'.units[r.slots[i]].value <= s.next <= x'.units[r.slots[i]].value + c {
      assert r.slots[i] == p.entry || x'.units[r.slots[i]] == x.units[r.slots[i]];
    }
  }

  lemma SameSlotFar(u: nat, v: nat, shift: nat, c: nat)
    requires u < v < u + c
    ensures Pos(u, shift, c) != Pos(v, shift, c)
  {
    if Pos(u, shift, c) == Pos(v, shift, c) { SameSlot(u, v, shift, c); }
  }

  lemma StoreTailInv(s: Index, x: Aux, ok: bool, b: BlockId)
    requires Inv(s, x) && s.producer.at == StoreTail
    ensures Inv(MakeProgress(s, ok, b), x)
  {
    var s', p, h, shift := MakeProgress(s, ok, b), s.producer, |s.rings| - 1, CurShift(s, x);
    var r, c := Cur(s), Cap(h);
    assert RingOk(s, x, h);
    forall e | 0 <= e < |s.entries| && s.entries[e].value.Some? ensures x.units[e].Some? && x.units[e].value < s'.next {
      assert EntryOk(s, x, e);
    }
    TailMoved(s, x, s');
    StoreTailCur(s, x, s');
    Assemble(s, x, s', x);
  }

  lemma StoreTailCur(s: Index, x: Aux, s': Index)
    requires Inv(s, x) && s.producer.at == StoreTail
    requires 0 < |s'.rings| == |s.rings| && s'.entries == s.entries && s'.next == s.next + 1
    requires Cur(s') == Cur(s).(tail := s.producer.newTail) && s'.producer == s.producer.(at := Decide)
    ensures CurOk(s', x) && ProducerOk(s', x)
  {
    var r, shift, n := Cur(s), CurShift(s, x), s'.next;
    var c := Cap(|s.rings| - 1);
    StoreTailSlots(s, x);
    if shift + c <= n {
      CapBig(|s.rings| - 1);
      assert UnitAt(x, r.slots, Pos(n - c, shift, c), n - c);
    }
  }

  lemma StoreTailSlots(s: Index, x: Aux)
    requires Inv(s, x) && s.producer.at == StoreTail
    ensures var r, shift, n, c := Cur(s), CurShift(s, x), s.next + 1, Cap(|s.rings| - 1);
            && (forall u {:trigger Pos(u, shift, c)} | shift <= u < n < u + c :: UnitAt(x, r.slots, Pos(u, shift, c), u))
            && (forall i {:trigger r.slots[i]} | 0 <= i < c && r.slots[i] < |x.units| && x.units[r.slots[i]].Some? ::
                  shift <= x.units[r.slots[i]].value < n <= x.units[r.slots[i]].value + c)
  {
    var r, shift, n, c := Cur(s), CurShift(s, x), s.next + 1, Cap(|s.rings| - 1);
    forall u | shift <= u < n < u + c ensures UnitAt(x, r.slots, Pos(u, shift, c), u) {
      if u < s.next { assert UnitAt(x, r.slots, Pos(u, shift, c), u); }
    }
    forall i | 0 <= i < c && r.slots[i] < |x.units| && x.units[r.slots[i]].Some?
      ensures shift <= x.units[r.slots[i]].value < n <= x.units[r.slots[i]].value + c {
      OldestGone(s, x, i);
    }
  }

  lemma CapBig(h: nat)
    ensures Cap(h) >= 2
  {
    if h > 0 { CapBig(h - 1); }
  }

  /** The unit a capacity back has just been replaced. */
  lemma OldestGone(s: Index, x: Aux, i: nat)
    requires Inv(s, x) && s.producer.at == StoreTail && i < Cap(|s.rings| - 1)
    requires Cur(s).slots[i] < |x.units| && x.units[Cur(s).slots[i]].Some?
    ensures s.next < x.units[Cur(s).slots[i]].value + Cap(|s.rings| - 1)
  {
    var h := |s.rings| - 1;
    var c, k := Cap(h), x.units[Cur(s).slots[i]].value;
    assert RingOk(s, x, h);
    if k + c == s.next {
      assert Pos(k, CurShift(s, x), c) == i;
      NextSlotFull(k, CurShift(s, x), c);
    }
  }

  lemma NextSlotFull(k: nat, shift: nat, c: nat)
    requires c > 0
    ensures Pos(k + c, shift, c) == Pos(k, shift, c)
  {
    AddMultiple(k - shift, 1, c);
  }

  /** Moving the tail of the current ring leaves slots and entries as they are. */
  lemma TailMoved(s: Index, x: Aux, s': Index)
    requires Inv(s, x) && Cur(s').tail < Cap(|s.rings| - 1)
    requires s'.rings == SetTail(s, Cur(s').tail).rings && s'.entries == s.entries && s'.readers == s.readers
    requires forall e {:trigger x.units[e]} :: 0 <= e < |s.entries| && s.entries[e].value.Some? ==>
               x.units[e].Some? && x.units[e].value < s'.next
    ensures Keeps(s, x, s', x) && Cur(s').slots == Cur(s).slots
    ensures forall h {:trigger RingOk(s', x, h)} :: 0 <= h < |s'.rings| ==> RingOk(s', x, h)
    ensures forall e {:trigger EntryOk(s', x, e)} :: 0 <= e < |s'.entries| ==> EntryOk(s', x, e)
  {
    forall h | 0 <= h < |s'.rings| ensures RingOk(s', x, h) { assert RingOk(s, x, h); }
    forall e | 0 <= e < |s'.entries| ensures EntryOk(s', x, e) { assert EntryOk(s, x, e); }
  }

  lemma DecideInv(s: Index, x: Aux, ok: bool, b: BlockId)
    requires Inv(s, x) && s.producer.at == Decide
    ensures Inv(MakeProgress(s, ok, b), x)
  {
    var p := MakeProgress(s, ok, b).producer;
    Decided(s, x, p);
    MoveOn(s, x, p);
  }

  lemma Decided(s: Index, x: Aux, p: Producer)
    requires 0 < |s.rings| == |x.shifts| && |x.units| == |s.entries| && ProducerOk(s, x) && s.producer.at == Decide
    requires p.at == RewindTail || (p.at == StoreValue && p.value.Some?)
    requires p.entry == s.producer.entry
    ensures ProducerOk(s.(producer := p), x)
  {
  }

  lemma StoreValueInv(s: Index, x: Aux, ok: bool, b: BlockId)
    requires Inv(s, x) && s.producer.at == StoreValue
    ensures Inv(MakeProgress(s, ok, b), AuxStep(s, x, Produce(ok, b)))
  {
    var s', x' := MakeProgress(s, ok, b), AuxStep(s, x, Produce(ok, b));
    var p := s.producer;
    forall h | 0 <= h < |s'.rings| ensures RingOk(s', x', h) { assert RingOk(s, x, h); }
    forall e | 0 <= e < |s'.entries| ensures EntryOk(s', x', e) {
      assert EntryOk(s, x, e);
      if x.units[e] == x.units[p.entry] { OneEntry(s, x, e, p.entry); }
    }
    SameCur(s, x, s', x');
    Assemble(s, x, s', x');
  }

  /** The current ring does not depend on the blocks. */
  lemma SameCur(s: Index, x: Aux, s': Index, x': Aux)
    requires Inv(s, x) && s'.rings == s.rings && s'.next == s.next && |s'.entries| == |s.entries|
    requires x'.units == x.units && x'.shifts == x.shifts
    ensures CurOk(s', x')
  {
    var shift, c := CurShift(s, x), Cap(|s.rings| - 1);
    forall u | shift <= u < s.next < u + c ensures UnitAt(x', Cur(s').slots, Pos(u, shift, c), u) {
      assert UnitAt(x, Cur(s).slots, Pos(u, shift, c), u);
    }
  }

  lemma RewindTailInv(s: Index, x: Aux, ok: bool, b: BlockId)
    requires Inv(s, x) && s.producer.at == RewindTail
    ensures Inv(MakeProgress(s, ok, b), x)
  {
    var h := |s.rings| - 1;
    assert RingOk(s, x, h);
    NextSlot(s.next - 1, -1, CurShift(s, x), Cap(h));
    Rewound(s, x, MakeProgress(s, ok, b));
  }

  lemma Rewound(s: Index, x: Aux, s': Index)
    requires Inv(s, x) && s.producer.at == RewindTail
    requires s' == SetTail(s, Pos(s.next - 2, CurShift(s, x), Cap(|s.rings| - 1)))
                   .(next := s.next - 1, producer := s.producer.(at := RewindValue))
    ensures Inv(s', x)
  {
    RewindEntries(s, x);
    TailMoved(s, x, s');
    RewindCur(s, x, s');
    Assemble(s, x, s', x);
  }

  /** The entry that is given up is the only one of its unit, and has no block. */
  lemma RewindEntries(s: Index, x: Aux)
    requires Inv(s, x) && s.producer.at == RewindTail
    ensures forall e | 0 <= e < |s.entries| && s.entries[e].value.Some? :: x.units[e].Some? && x.units[e].value < s.next - 1
  {
    var last := s.producer.entry;
    forall e | 0 <= e < |s.entries| && s.entries[e].value.Some? ensures x.units[e].Some? && x.units[e].value < s.next - 1 {
      assert EntryOk(s, x, e);
      if x.units[e] == x.units[last] { OneEntry(s, x, e, last); }
    }
  }

  lemma RewindCur(s: Index, x: Aux, s': Index)
    requires Inv(s, x) && s.producer.at == RewindTail
    requires 0 < |s'.rings| == |s.rings| && s'.entries == s.entries && s'.next == s.next - 1
    requires Cur(s') == Cur(s).(tail := Pos(s.next - 2, CurShift(s, x), Cap(|s.rings| - 1)))
    ensures CurOk(s', x)
  {
    RewindUnits(s, x);
    RewindSlots(s, x);
  }

  lemma RewindUnits(s: Index, x: Aux)
    requires Inv(s, x) && s.producer.at == RewindTail
    ensures var shift, n, c := CurShift(s, x), s.next - 1, Cap(|s.rings| - 1);
            forall u {:trigger Pos(u, shift, c)} :: shift <= u < n < u + c ==> UnitAt(x, Cur(s).slots, Pos(u, shift, c), u)
  {
    var r, shift, n, c := Cur(s), CurShift(s, x), s.next - 1, Cap(|s.rings| - 1);
    forall u | shift <= u < n < u + c ensures UnitAt(x, r.slots, Pos(u, shift, c), u) {
      if u + c > s.next { assert UnitAt(x, r.slots, Pos(u, shift, c), u); }
    }
  }

  lemma RewindSlots(s: Index, x: Aux)
    requires Inv(s, x) && s.producer.at == RewindTail
    ensures var r, shift, n, c := Cur(s), CurShift(s, x), s.next - 1, Cap(|s.rings| - 1);
            && shift <= n
            && forall i {:trigger r.slots[i]} :: 0 <= i < c && r.slots[i] < |x.units| && x.units[r.slots[i]].Some? ==>
                 shift <= x.units[r.slots[i]].value <= n <= x.units[r.slots[i]].value + c
  {
    var r, e := Cur(s), s.producer.entry;
    assert EntryOk(s, x, e);
    var j :| 0 <= j < |r.slots| && r.slots[j] == e;
  }

  lemma RewindValueInv(s: Index, x: Aux, ok: bool, b: BlockId)
    requires Inv(s, x) && s.producer.at == RewindValue
    ensures Inv(MakeProgress(s, ok, b), x)
  {
    var s', p := MakeProgress(s, ok, b), s.producer;
    assert s'.entries == s.entries;
    MoveOn(s, x, s'.producer);
  }

  // ---------------------------------------------------------------------------------------
  // Growing
  // ---------------------------------------------------------------------------------------

  /** The i-th oldest entry of a full ring. */
  lemma Oldest(s: Index, x: Aux, i: nat)
    requires Inv(s, x) && s.producer.at == Grow && i < Cap(|s.rings| - 1)
    ensures Wrap(Cur(s).tail + 1 + i, Cap(|s.rings| - 1)) < |Cur(s).slots|
    ensures UnitAt(x, Cur(s).slots, Wrap(Cur(s).tail + 1 + i, Cap(|s.rings| - 1)), s.next - Cap(|s.rings| - 1) + i)
  {
    var shift, c := CurShift(s, x), Cap(|s.rings| - 1);
    var u := s.next - c + i;
    assert RingOk(s, x, |s.rings| - 1);
    NextSlot(s.next - 1, 1 + i, shift, c);
    NextSlotFull(u, shift, c);
    NextSlotFull(s.next - c, shift, c);
    assert UnitAt(x, Cur(s).slots, Pos(s.next - c, shift, c), s.next - c);
    if i > 0 { assert UnitAt(x, Cur(s).slots, Pos(u, shift, c), u); }
  }

  /** A full ring holds the last c units and nothing else: slot j is the i-th oldest for some i. */
  lemma IsOldest(s: Index, x: Aux, j: nat) returns (i: nat)
    requires Inv(s, x) && s.producer.at == Grow && j < Cap(|s.rings| - 1)
    ensures i < Cap(|s.rings| - 1) && Wrap(Cur(s).tail + 1 + i, Cap(|s.rings| - 1)) == j
  {
    var c, tail := Cap(|s.rings| - 1), Cur(s).tail;
    i := Wrap(j - tail - 1, c);
    DivUnique(i, 0, i, c);
    Shift(i, j - tail - 1, tail + 1, c);
    DivUnique(j, 0, j, c);
  }

  ghost predicate Grows(s: Index, x: Aux, s': Index, x': Aux) {
    && Inv(s, x) && s.producer.at == Grow && |s.rings| <= MAX_LEVEL
    && s'.rings == s.rings + [Bigger(Cur(s), |s.entries|)]
    && s'.entries == s.entries + Fresh(Cap(|s.rings| - 1)) && s'.next == s.next && s'.readers == s.readers
    && x'.units == x.units + NoUnits(Cap(|s.rings| - 1)) && x'.stored == x.stored
    && x'.shifts == x.shifts + [s.next - Cap(|s.rings| - 1)]
    && s'.producer.at == StoreKey && s'.producer.newTail == Cap(|s.rings| - 1)
    && s'.producer.entry == |s.entries|
  }

  /** What hangs in the new ring: the last c units from slot 0 on, then unused entries. */
  lemma NewSlot(s: Index, x: Aux, s': Index, x': Aux, i: nat)
    requires Grows(s, x, s', x') && i < 2 * Cap(|s.rings| - 1)
    ensures |Cur(s').slots| == 2 * Cap(|s.rings| - 1)
    ensures i < Cap(|s.rings| - 1) ==>
              Cur(s').slots[i] < |s.entries| && x'.units[Cur(s').slots[i]] == Some(s.next - Cap(|s.rings| - 1) + i)
    ensures i >= Cap(|s.rings| - 1) ==>
              Cur(s').slots[i] == |s.entries| + (i - Cap(|s.rings| - 1)) < |s'.entries|
              && x'.units[Cur(s').slots[i]] == None
  {
    assert RingOk(s, x, |s.rings| - 1);
    if i < Cap(|s.rings| - 1) { Oldest(s, x, i); }
  }

  lemma GrowUnits(s: Index, x: Aux, s': Index, x': Aux, i: nat)
    requires Grows(s, x, s', x') && i < 2 * Cap(|s.rings| - 1) == |Cur(s').slots|
    requires Cur(s').slots[i] < |x'.units| && x'.units[Cur(s').slots[i]].Some?
    ensures s.next - Cap(|s.rings| - 1) <= x'.units[Cur(s').slots[i]].value < s.next
  {
    NewSlot(s, x, s', x', i);
  }

  lemma GrowWindow(s: Index, x: Aux, s': Index, x': Aux, u: nat)
    requires Grows(s, x, s', x') && s.next - Cap(|s.rings| - 1) <= u < s.next
    ensures UnitAt(x', Cur(s').slots, Pos(u, s.next - Cap(|s.rings| - 1), Cap(|s.rings|)), u)
  {
    var shift := s.next - Cap(|s.rings| - 1);
    PosRange(u, shift, Cap(|s.rings|));
    NewSlot(s, x, s', x', u - shift);
  }

  lemma GrowDistinct(s: Index, x: Aux, s': Index, x': Aux, i: nat, j: nat)
    requires Grows(s, x, s', x') && i < j < 2 * Cap(|s.rings| - 1) == |Cur(s').slots|
    ensures Cur(s').slots[i] != Cur(s').slots[j]
  {
    NewSlot(s, x, s', x', i);
    NewSlot(s, x, s', x', j);
  }

  lemma GrowTail(s: Index, x: Aux, s': Index, x': Aux)
    requires Grows(s, x, s', x')
    ensures s.next >= Cap(|s.rings| - 1) && Cap(|s'.rings| - 1) == 2 * Cap(|s.rings| - 1) == |Cur(s').slots|
    ensures CurShift(s', x') == s.next - Cap(|s.rings| - 1)
    ensures Cur(s').tail == Pos(s.next - 1, CurShift(s', x'), Cap(|s'.rings| - 1))
    ensures s'.producer.newTail == Pos(s.next, CurShift(s', x'), Cap(|s'.rings| - 1))
    ensures s'.producer.newTail < |Cur(s').slots| && Cur(s').slots[s'.producer.newTail] == |s.entries| < |s'.entries|
    ensures s'.entries[|s.entries|].value == None
  {
    var c := Cap(|s.rings| - 1);
    assert RingOk(s, x, |s.rings| - 1);
    PosRange(s.next, s.next - c, 2 * c);
    PosRange(s.next - 1, s.next - c, 2 * c);
    DivUnique(c - 1, 0, c - 1, 2 * c);
    NewSlot(s, x, s', x', c);
  }

  lemma GrowCur(s: Index, x: Aux, s': Index, x': Aux)
    requires Grows(s, x, s', x')
    ensures CurOk(s', x') && ProducerOk(s', x')
  {
    GrowTail(s, x, s', x');
    var r, c := Cur(s'), Cap(|s'.rings| - 1);
    var shift := CurShift(s', x');
    forall i | 0 <= i < c && r.slots[i] < |x'.units| && x'.units[r.slots[i]].Some?
      ensures shift <= x'.units[r.slots[i]].value <= s.next <= x'.units[r.slots[i]].value + c {
      GrowUnits(s, x, s', x', i);
    }
    forall u | shift <= u < s.next < u + c ensures UnitAt(x', r.slots, Pos(u, shift, c), u) {
      GrowWindow(s, x, s', x', u);
    }
    forall i, j | 0 <= i < j < c ensures r.slots[i] != r.slots[j] {
      GrowDistinct(s, x, s', x', i, j);
    }
  }

  lemma GrowRing(s: Index, x: Aux, s': Index, x': Aux, h: nat)
    requires Grows(s, x, s', x') && h < |s'.rings|
    ensures RingOk(s', x', h)
  {
    var g := |s.rings| - 1;
    var c := Cap(g);
    if h <= g {
      assert RingOk(s, x, h);
      assert s'.rings[h] == s.rings[h] && x'.shifts[h] == x.shifts[h];
      forall i | 0 <= i < Cap(h) ensures x'.units[s.rings[h].slots[i]].Some? {
        if h == g {
          var k := IsOldest(s, x, i);
          Oldest(s, x, k);
        }
      }
    } else {
      DivUnique(c - 1, 0, c - 1, 2 * c);
      NewSlot(s, x, s', x', 0);
      forall i | 0 <= i < 2 * c
        ensures Cur(s').slots[i] < |s'.entries|
        ensures x'.units[Cur(s').slots[i]].Some? ==>
                  Pos(x'.units[Cur(s').slots[i]].value, s.next - c, 2 * c) == i {
        NewSlot(s, x, s', x', i);
        if i < c { PosRange(s.next - c + i, s.next - c, 2 * c); }
      }
    }
  }

  lemma GrowEntry(s: Index, x: Aux, s': Index, x': Aux, e: EntryId)
    requires Grows(s, x, s', x') && e < |s'.entries|
    ensures EntryOk(s', x', e)
  {
    var c := Cap(|s.rings| - 1);
    if e < |s.entries| {
      assert EntryOk(s, x, e);
      assert RingOk(s, x, |s.rings| - 1);
      var j :| 0 <= j < |Cur(s).slots| && Cur(s).slots[j] == e;
      var i := IsOldest(s, x, j);
      NewSlot(s, x, s', x', i);
      assert Cur(s').slots[i] == e;
    } else {
      NewSlot(s, x, s', x', c + (e - |s.entries|));
      assert Cur(s').slots[c + (e - |s.entries|)] == e;
    }
  }

  lemma GrowInv(s: Index, x: Aux, ok: bool, b: BlockId)
    requires Inv(s, x) && s.producer.at == Grow
    ensures Inv(MakeProgress(s, ok, b), AuxStep(s, x, Produce(ok, b)))
  {
    var s', x' := MakeProgress(s, ok, b), AuxStep(s, x, Produce(ok, b));
    if ok && |s.rings| <= MAX_LEVEL {
      GrowEffect(s, x, ok, b);
      GrowCur(s, x, s', x');
      forall h | 0 <= h < |s'.rings| ensures RingOk(s', x', h) { GrowRing(s, x, s', x', h); }
      forall e | 0 <= e < |s'.entries| ensures EntryOk(s', x', e) { GrowEntry(s, x, s', x', e); }
      Assemble(s, x, s', x');
    } else {
      MoveOn(s, x, s'.producer);
    }
  }

  lemma GrowEffect(s: Index, x: Aux, ok: bool, b: BlockId)
    requires Inv(s, x) && s.producer.at == Grow && ok && |s.rings| <= MAX_LEVEL
    ensures Grows(s, x, MakeProgress(s, ok, b), AuxStep(s, x, Produce(ok, b)))
  {
    var c := Cap(|s.rings| - 1);
    assert RingOk(s, x, |s.rings| - 1);
    DivUnique(c - 1, 0, c - 1, 2 * c);
    DivUnique(c, 0, c, 2 * c);
  }

  // ---------------------------------------------------------------------------------------
  // The consumers' operations
  // ---------------------------------------------------------------------------------------

  /** A step of one consumer, which changes nothing but its local variables. */
  lemma ReaderMoved(s: Index, x: Aux, t: ThreadId, r: Reader)
    requires Inv(s, x) && ReaderOk(s.(readers := s.readers[t := r]), x, t)
    ensures Inv(s.(readers := s.readers[t := r]), x)
  {
    var s' := s.(readers := s.readers[t := r]);
    forall h | 0 <= h < |s'.rings| ensures RingOk(s', x, h) { assert RingOk(s, x, h); }
    forall e | 0 <= e < |s'.entries| ensures EntryOk(s', x, e) { assert EntryOk(s, x, e); }
    SameCur(s, x, s', x);
    forall u | u in s'.readers && u != t ensures ReaderOk(s', x, u) {
      assert ReaderOk(s, x, u);
      OtherReader(s, x, t, r, u);
    }
  }

  lemma OtherReader(s: Index, x: Aux, t: ThreadId, r: Reader, u: ThreadId)
    requires u in s.readers && u != t && ReaderOk(s, x, u)
    ensures ReaderOk(s.(readers := s.readers[t := r]), x, u)
  {
    var s' := s.(readers := s.readers[t := r]);
    var me := s.readers[u];
    forall v | me.unit <= v <= me.last && me.at == LoadRing ensures Live(s', x.units, v) {
      assert Live(s, x.units, v);
      var e: EntryId :| Holds(s, x.units, e, v);
      assert Holds(s', x.units, e, v);
    }
    forall v | me.unit <= v <= me.last && me.at in {LoadTail, LoadKey, Found} ensures Leads(s', x, me.ring, v) {
      assert Leads(s, x, me.ring, v);
    }
  }

  lemma LookUpInv(s: Index, x: Aux, t: ThreadId, first: nat, last: nat)
    requires Inv(s, x) && Enabled(s, x.units, LookUp(t, first, last))
    ensures Inv(Step(s, LookUp(t, first, last)), x)
  {
    var r := Reader(LoadRing, first, last, 0, 0, 0);
    var s' := s.(readers := s.readers[t := r]);
    forall u | first <= u <= last ensures Live(s', x.units, u) {
      assert Live(s, x.units, u);
      var e: EntryId :| Holds(s, x.units, e, u);
      assert Holds(s', x.units, e, u);
    }
    ReaderMoved(s, x, t, r);
  }

  /** The tail entry of a ring some live unit hangs in has a key. */
  lemma TailKeyed(s: Index, x: Aux, h: nat, u: nat)
    requires Inv(s, x) && Leads(s, x, h, u)
    ensures s.rings[h].tail < |s.rings[h].slots| && s.rings[h].slots[s.rings[h].tail] < |x.units|
    ensures x.units[s.rings[h].slots[s.rings[h].tail]].Some?
  {
    assert RingOk(s, x, h);
    if h == |s.rings| - 1 {
      var shift, c := CurShift(s, x), Cap(h);
      var e := s.rings[h].slots[Pos(u, shift, c)];
      assert EntryOk(s, x, e);
      assert shift <= x.units[e].value == u < s.next;
      assert UnitAt(x, Cur(s).slots, Pos(s.next - 1, shift, c), s.next - 1);
    }
  }

  lemma ReadInv(s: Index, x: Aux, t: ThreadId)
    requires Inv(s, x) && t in s.readers && s.readers[t].at != Idle
    ensures Inv(Look(s, t), x)
  {
    var r, s' := s.readers[t], Look(s, t);
    var r' := s'.readers[t];
    assert ReaderOk(s, x, t);
    match r.at {
      case LoadRing =>
        forall u | r.unit <= u <= r.last ensures Leads(s', x, r'.ring, u) {
          assert Live(s, x.units, u);
          LiveLeads(s, x, u);
        }
      case LoadTail =>
        assert Leads(s, x, r.ring, r.unit);
        TailKeyed(s, x, r.ring, r.unit);
        LeadsKept(s, x, t, r');
      case LoadKey =>
        assert Leads(s, x, r.ring, r.unit);
        KeyFinds(s, x, t);
        LeadsKept(s, x, t, r');
      case Found =>
        assert Leads(s, x, r.ring, r.unit);
        NextSlot(r.unit, 1, x.shifts[r.ring], Cap(r.ring));
        LeadsKept(s, x, t, r');
    }
    ReaderMoved(s, x, t, r');
  }

  lemma LeadsKept(s: Index, x: Aux, t: ThreadId, r: Reader)
    requires t in s.readers && ReaderOk(s, x, t) && s.readers[t].at in {LoadTail, LoadKey, Found}
    requires r.ring == s.readers[t].ring && s.readers[t].unit <= r.unit && r.last == s.readers[t].last
    ensures forall u {:trigger Leads(s.(readers := s.readers[t := r]), x, r.ring, u)} :: r.unit <= u <= r.last ==>
              Leads(s.(readers := s.readers[t := r]), x, r.ring, u)
  {
    var s' := s.(readers := s.readers[t := r]);
    forall u | r.unit <= u <= r.last ensures Leads(s', x, r.ring, u) {
      assert Leads(s, x, s.readers[t].ring, u);
    }
  }

  /** The slot computed from the tail entry's key is the one the unit hangs in. */
  lemma KeyFinds(s: Index, x: Aux, t: ThreadId)
    requires Inv(s, x) && t in s.readers && s.readers[t].at == LoadKey && Leads(s, x, s.readers[t].ring, s.readers[t].unit)
    ensures Look(s, t).readers[t].slot == Pos(s.readers[t].unit, x.shifts[s.readers[t].ring], Cap(s.readers[t].ring))
  {
    var r := s.readers[t];
    assert ReaderOk(s, x, t) && RingOk(s, x, r.ring);
    var e := s.rings[r.ring].slots[r.tail];
    assert EntryOk(s, x, e);
    SlotIsRight(r.ring, x.shifts[r.ring], r.unit, x.units[e].value);
  }

  lemma RetireInv(s: Index, x: Aux, e: EntryId)
    requires Inv(s, x) && Enabled(s, x.units, Retire(e))
    ensures Inv(Step(s, Retire(e)), x)
  {
    var s' := Step(s, Retire(e));
    forall h | 0 <= h < |s'.rings| ensures RingOk(s', x, h) { assert RingOk(s, x, h); }
    forall f | 0 <= f < |s'.entries| ensures EntryOk(s', x, f) { assert EntryOk(s, x, f); }
    SameCur(s, x, s', x);
    RetireProducer(s, x, e);
    forall t | t in s'.readers ensures ReaderOk(s', x, t) {
      assert ReaderOk(s, x, t);
      RetireReader(s, x, e, t);
    }
  }

  lemma RetireProducer(s: Index, x: Aux, e: EntryId)
    requires Inv(s, x) && e < |s.entries|
    ensures ProducerOk(Step(s, Retire(e)), x)
  {
  }

  lemma RetireReader(s: Index, x: Aux, e: EntryId, t: ThreadId)
    requires Inv(s, x) && Enabled(s, x.units, Retire(e)) && t in s.readers && ReaderOk(s, x, t)
    ensures ReaderOk(Step(s, Retire(e)), x, t)
  {
    var r, s' := s.readers[t], Step(s, Retire(e));
    assert !Needs(r, x.units[e].value);
    forall u | r.unit <= u <= r.last && r.at == LoadRing ensures Live(s', x.units, u) {
      assert Live(s, x.units, u);
      var f: EntryId :| Holds(s, x.units, f, u);
      assert Holds(s', x.units, f, u);
    }
    forall u | r.unit <= u <= r.last && r.at in {LoadTail, LoadKey, Found} ensures Leads(s', x, r.ring, u) {
      assert Leads(s, x, r.ring, u);
    }
  }

  // ---------------------------------------------------------------------------------------
  // Runs
  // ---------------------------------------------------------------------------------------

  lemma StepInv(s: Index, x: Aux, a: Action)
    requires Inv(s, x) && Enabled(s, x.units, a)
    ensures Inv(Step(s, a), AuxStep(s, x, a))
  {
    match a {
      case Insert => MoveOn(s, x, s.producer.(at := Check));
      case LookUp(t, first, last) => LookUpInv(s, x, t, first, last);
      case Read(t) => ReadInv(s, x, t);
      case Retire(e) => RetireInv(s, x, e);
      case Produce(ok, b) =>
        match s.producer.at {
          case Check => CheckInv(s, x, ok, b);
          case Grow => GrowInv(s, x, ok, b);
          case StoreKey => StoreKeyInv(s, x, ok, b);
          case StoreTail => StoreTailInv(s, x, ok, b);
          case Decide => DecideInv(s, x, ok, b);
          case StoreValue => StoreValueInv(s, x, ok, b);
          case RewindTail => RewindTailInv(s, x, ok, b);
          case RewindValue => RewindValueInv(s, x, ok, b);
        }
    }
  }

  /** The producer's constructor: one ring of unused entries. */
  function Init(threads: set<ThreadId>): Index {
    Index([Ring(INITIAL_CAPACITY - 1, seq(INITIAL_CAPACITY, i => i))], Fresh(INITIAL_CAPACITY), 0,
          Producer(Ready, 0, 0, None), map t | t in threads :: Reader(Idle, 0, 0, 0, 0, 0))
  }

  function Execute(threads: set<ThreadId>, steps: seq<Action>): Index {
    if steps == [] then Init(threads) else Step(Execute(threads, steps[..|steps| - 1]), steps[|steps| - 1])
  }

  function History(threads: set<ThreadId>, steps: seq<Action>): Aux {
    if steps == [] then Aux(NoUnits(INITIAL_CAPACITY), [0], map[])
    else AuxStep(Execute(threads, steps[..|steps| - 1]), History(threads, steps[..|steps| - 1]), steps[|steps| - 1])
  }

  /** Every operation is performed when its thread is there, and blocks are retired when nobody needs them. */
  ghost predicate Legal(threads: set<ThreadId>, steps: seq<Action>) {
    steps == [] ||
    (&& Legal(threads, steps[..|steps| - 1])
     && Enabled(Execute(threads, steps[..|steps| - 1]), History(threads, steps[..|steps| - 1]).units, steps[|steps| - 1]))
  }

  lemma {:induction false} ExecuteInv(threads: set<ThreadId>, steps: seq<Action>)
    requires Legal(threads, steps)
    ensures Inv(Execute(threads, steps), History(threads, steps))
  {
    if steps == [] {
      var s, x := Init(threads), Aux(NoUnits(INITIAL_CAPACITY), [0], map[]);
      assert RingOk(s, x, 0);
      forall e | 0 <= e < |s.entries| ensures EntryOk(s, x, e) { assert Cur(s).slots[e] == e; }
    } else {
      ExecuteInv(threads, steps[..|steps| - 1]);
      StepInv(Execute(threads, steps[..|steps| - 1]), History(threads, steps[..|steps| - 1]), steps[|steps| - 1]);
    }
  }

  /** What a consumer that has finished its look-up holds in its hands. */
  function EntryFound(s: Index, r: Reader): Entry {
    EntryAt(s, SlotAt(RingAt(s, r.ring), r.slot))
  }

  /**
   * The index is a finite map from units to blocks: whatever has been inserted, rewound, retired or
   * doubled since, and however old the ring it reads, a consumer finds the entry keyed with its index,
   * and in it the block last stored for it. These are the assertions of the look-up.
   */
  lemma LookupIsRight(threads: set<ThreadId>, steps: seq<Action>, t: ThreadId)
    requires Legal(threads, steps)
    requires t in Execute(threads, steps).readers && Execute(threads, steps).readers[t].at == Found
    ensures var s, r := Execute(threads, steps), Execute(threads, steps).readers[t];
            && r.unit in History(threads, steps).stored
            && EntryFound(s, r) == Entry(Word(BLOCK_SIZE * r.unit), Some(History(threads, steps).stored[r.unit]))
  {
    ExecuteInv(threads, steps);
    FoundEntry(Execute(threads, steps), History(threads, steps), t);
  }

  lemma FoundEntry(s: Index, x: Aux, t: ThreadId)
    requires Inv(s, x) && t in s.readers && s.readers[t].at == Found
    ensures s.readers[t].unit in x.stored
    ensures EntryFound(s, s.readers[t]) == Entry(Word(BLOCK_SIZE * s.readers[t].unit), Some(x.stored[s.readers[t].unit]))
  {
    var r := s.readers[t];
    assert ReaderOk(s, x, t);
    assert Leads(s, x, r.ring, r.unit);
    assert EntryOk(s, x, s.rings[r.ring].slots[r.slot]);
  }

  /** Before it divides by the distance, the look-up never meets an entry without a key. */
  lemma TailHasKey(threads: set<ThreadId>, steps: seq<Action>, t: ThreadId)
    requires Legal(threads, steps)
    requires t in Execute(threads, steps).readers && Execute(threads, steps).readers[t].at == LoadKey
    ensures var s, r := Execute(threads, steps), Execute(threads, steps).readers[t];
            EntryAt(s, SlotAt(RingAt(s, r.ring), r.tail)).key != INVALID_BLOCK_BASE
  {
    ExecuteInv(threads, steps);
    var s, x := Execute(threads, steps), History(threads, steps);
    var r := s.readers[t];
    assert ReaderOk(s, x, t);
    assert EntryOk(s, x, s.rings[r.ring].slots[r.tail]);
    NotInvalid(x.units[s.rings[r.ring].slots[r.tail]].value);
  }

  /** A block in use is never overwritten: a key is stored only into an entry without a block. */
  lemma OnlyUnusedOverwritten(threads: set<ThreadId>, steps: seq<Action>)
    requires Legal(threads, steps) && Execute(threads, steps).producer.at == StoreKey
    ensures EntryAt(Execute(threads, steps), Execute(threads, steps).producer.entry).value == None
  {
    ExecuteInv(threads, steps);
  }

  // ---------------------------------------------------------------------------------------
  // What an operation gets done
  // ---------------------------------------------------------------------------------------

  /** The entry in the slot after the tail. */
  function NextUp(s: Index): Entry {
    EntryAt(s, SlotAt(Cur(s), Wrap(Cur(s).tail + 1, Capacity(Cur(s)))))
  }

  /** The last slot in use has the key of unit u, and block b in it; nothing that held a block has changed. */
  ghost predicate Added(s: Index, s': Index, u: nat, b: BlockId) {
    var r := Cur(s');
    && s'.producer.at == Ready && s'.next == u + 1
    && r.tail < |r.slots| && r.slots[r.tail] < |s'.entries|
    && s'.entries[r.slots[r.tail]] == Entry(Word(BLOCK_SIZE * u), Some(b))
    && |s.entries| <= |s'.entries|
    && forall e {:trigger s'.entries[e]} :: 0 <= e < |s.entries| && s.entries[e].value.Some? ==> s'.entries[e] == s.entries[e]
  }

  /** Four operations of the producer, which gets block b. */
  function Four(s: Index, b: BlockId): Index {
    MakeProgress(MakeProgress(MakeProgress(MakeProgress(s, true, b), true, b), true, b), true, b)
  }

  /** s': the unit is added, with another ring of twice the capacity exactly if the entry after the tail still held a block. */
  ghost predicate Inserted(s: Index, s': Index, b: BlockId) {
    && Added(s, s', s.next, b)
    && (if NextUp(s).value.Some? then |s'.rings| == |s.rings| + 1 && Capacity(Cur(s')) == 2 * Capacity(Cur(s))
        else |s'.rings| == |s.rings| && Cur(s').slots == Cur(s).slots)
  }

  /** Left alone, and given memory, an insertion that has begun is done in five steps, or in six if it needs another ring. */
  lemma LoneInsert(s: Index, x: Aux, b: BlockId) returns (s': Index)
    requires Inv(s, x) && s.producer.at == Check && |s.rings| <= MAX_LEVEL
    ensures var s1 := MakeProgress(s, true, b); s' == Four(if NextUp(s).value.Some? then MakeProgress(s1, true, b) else s1, b)
    ensures Inserted(s, s', b)
  {
    var s1 := Checks(s, x, b);
    if NextUp(s).value.Some? {
      GrowsAndStores(s, x, s1, b);
      s' := Four(MakeProgress(s1, true, b), b);
    } else {
      StoresAll(s1, b);
      s' := Four(s1, b);
    }
  }

  lemma Checks(s: Index, x: Aux, b: BlockId) returns (s1: Index)
    requires Inv(s, x) && s.producer.at == Check
    ensures s1 == MakeProgress(s, true, b) == s.(producer := s1.producer) && Inv(s1, x)
    ensures if NextUp(s).value.Some? then s1.producer.at == Grow else AboutToStore(s1)
  {
    CheckInv(s, x, true, b);
    NextEntry(s, x);
    s1 := MakeProgress(s, true, b);
  }

  lemma GrowsAndStores(s: Index, x: Aux, s1: Index, b: BlockId)
    requires Inv(s, x) && |s.rings| <= MAX_LEVEL
    requires s1 == s.(producer := s1.producer) && s1.producer.at == Grow && Inv(s1, x)
    ensures var s' := Four(MakeProgress(s1, true, b), b);
            Added(s, s', s.next, b) && |s'.rings| == |s.rings| + 1 && Capacity(Cur(s')) == 2 * Capacity(Cur(s))
  {
    GrowsFirst(s, s1, x, b);
    var s2 := MakeProgress(s1, true, b);
    StoresAll(s2, b);
    forall e | 0 <= e < |s.entries| && s.entries[e].value.Some? ensures Four(s2, b).entries[e] == s.entries[e] {
      assert s2.entries[e] == s.entries[e];
    }
  }

  /** The slot for the next unit is found, and nothing is stored yet. */
  ghost predicate AboutToStore(s: Index) {
    var p, r := s.producer, Cur(s);
    && s.rings != [] && p.at == StoreKey && p.newTail < |r.slots| && r.slots[p.newTail] == p.entry
    && p.entry < |s.entries| && s.entries[p.entry].value == None
  }

  lemma StoresAll(s: Index, b: BlockId)
    requires AboutToStore(s)
    ensures Added(s, Four(s, b), s.next, b)
    ensures |Four(s, b).rings| == |s.rings| && Cur(Four(s, b)).slots == Cur(s).slots
  {
    var s1 := MakeProgress(s, true, b);
    assert s1.producer.at == StoreTail && s1.entries == s.entries[s.producer.entry := Entry(Word(BLOCK_SIZE * s.next), None)];
    var s2 := MakeProgress(s1, true, b);
    assert s2.producer.at == Decide && s2.next == s.next + 1 && Cur(s2) == Cur(s).(tail := s.producer.newTail);
    var s3 := MakeProgress(s2, true, b);
    assert s3.producer.at == StoreValue && s3.producer.value == Some(b) && s3.rings == s2.rings;
  }

  lemma GrowsFirst(s: Index, s1: Index, x: Aux, b: BlockId)
    requires |s.rings| <= MAX_LEVEL
    requires s1 == s.(producer := s1.producer) && s1.producer.at == Grow && Inv(s1, x)
    ensures var s2 := MakeProgress(s1, true, b);
            && AboutToStore(s2) && |s2.rings| == |s.rings| + 1 && Capacity(Cur(s2)) == 2 * Capacity(Cur(s))
            && s2.next == s.next && s.entries <= s2.entries
  {
    StepInv(s1, x, Produce(true, b));
  }

  /** Without memory for a bigger ring it stays as it was; without a block, the insertion is taken back. */
  lemma NoMemory(s: Index, x: Aux, b: BlockId)
    requires Inv(s, x) && s.producer.at in {Grow, Decide}
    ensures var s1 := MakeProgress(s, false, b);
            if s.producer.at == Grow then s1 == s.(producer := s1.producer) && s1.producer.at == Ready
            else
              var s3 := MakeProgress(MakeProgress(s1, false, b), false, b);
              && s3.producer.at == Ready && s3.next == s.next - 1 && |s3.rings| == |s.rings|
              && Cur(s3).slots == Cur(s).slots && (Cur(s3).tail + 1) % Capacity(Cur(s)) == Cur(s).tail
              && s3.entries == s.entries
  {
    if s.producer.at == Decide {
      var s1 := MakeProgress(s, false, b);
      assert s1.producer.at == RewindTail && s1.producer.entry == s.producer.entry;
      var s2 := MakeProgress(s1, false, b);
      assert RingOk(s, x, |s.rings| - 1);
      BackAndForth(Cur(s).tail, Capacity(Cur(s)));
      assert s2.producer.at == RewindValue && s2.entries == s.entries;
    }
  }

  lemma BackAndForth(tail: nat, c: nat)
    requires tail < c
    ensures ((tail - 1) % c + 1) % c == tail
  {
    if tail == 0 { DivUnique(-1, -1, c - 1, c); DivUnique(c, 1, 0, c); }
    else { DivUnique(tail - 1, 0, tail - 1, c); DivUnique(tail, 0, tail, c); }
  }

  /** The operations a look-up still needs at most: three for the first unit, one for each further one, one to end. */
  function ToRead(r: Reader): nat {
    var span := if r.unit <= r.last then r.last - r.unit + 1 else 1;
    match r.at
    case Idle => 0
    case LoadRing => span + 3
    case LoadTail => span + 2
    case LoadKey => span + 1
    case Found => span
  }

  /** No look-up waits or starts again: in any run each operation of a reader brings it nearer to its end. */
  lemma ReadHelps(s: Index, x: Aux, a: Action, t: ThreadId)
    requires Inv(s, x) && Enabled(s, x.units, a) && t in s.readers && s.readers[t].at != Idle
    ensures t in Step(s, a).readers
    ensures if a == Read(t) then ToRead(Step(s, a).readers[t]) < ToRead(s.readers[t])
            else Step(s, a).readers[t] == s.readers[t]
  {
  }

  /** It comes to the first unit asked for, then to each one after it up to the last, and then it is over. */
  lemma LookUpVisits(s: Index, t: ThreadId, first: nat, last: nat)
    requires t in s.readers && first <= last
    ensures var r := Look(Look(Look(Step(s, LookUp(t, first, last)), t), t), t).readers[t];
            r.at == Found && r.unit == first && r.last == last
    ensures s.readers[t].at == Found ==>
              var r, r' := s.readers[t], Look(s, t).readers[t];
              if r.unit < r.last then r'.at == Found && r'.unit == r.unit + 1 && r'.last == r.last else r'.at == Idle
  {
    var s1 := Look(Step(s, LookUp(t, first, last)), t);
    assert s1.readers[t].at == LoadTail;
    var s2 := Look(s1, t);
    assert s2.readers[t].at == LoadKey;
  }
}
