/** The shared-memory channel (19-ipc/memchannel.c): a ring of byte slots guarded by one mutex and
    two counting semaphores, used by any number of threads. `mc_put` and `mc_get` are five steps
    each: semaphore wait, lock, copy and increment, unlock, semaphore post. */
module MemChannels {
  import Spec = ChannelSpec
  import opened Commons
  import opened Tallies

  newtype byte = x: int | 0 <= x < 256

  type Bytes = seq<byte>

  /** The number of values of a 64-bit `size_t`. */
  const SIZES: nat := 0x1_0000_0000_0000_0000

  // ---------------------------------------------------------------- slots

  /** The slot the n-th operation of its kind uses: the counter wraps, then is reduced. */
  function Slot(n: nat, capacity: nat): nat
    requires capacity > 0
  {
    (n % SIZES) % capacity
  }

  /** `items + slot * elem_size` for one slot. */
  function Read(items: Bytes, slot: nat, elemSize: nat): Bytes
    requires slot * elemSize + elemSize <= |items|
  {
    items[slot * elemSize..slot * elemSize + elemSize]
  }

  function Write(items: Bytes, slot: nat, msg: Bytes): (r: Bytes)
    requires slot * |msg| + |msg| <= |items|
    ensures |r| == |items|
  {
    items[..slot * |msg|] + msg + items[slot * |msg| + |msg|..]
  }

  /** Slots lie inside the item area and do not overlap. */
  lemma SlotsDisjoint(j: nat, k: nat, capacity: nat, elemSize: nat)
    requires j < k
    ensures j * elemSize + elemSize <= k * elemSize
    ensures k <= capacity ==> j * elemSize + elemSize <= elemSize * capacity
  {
    assert (j + 1) * elemSize == j * elemSize + elemSize;
    MulMonotone(j + 1, k, elemSize);
    if k <= capacity {
      MulMonotone(j + 1, capacity, elemSize);
    }
  }

  lemma SlotInArea(k: nat, capacity: nat, elemSize: nat)
    requires k < capacity
    ensures k * elemSize + elemSize <= elemSize * capacity
  {
    SlotsDisjoint(k, capacity, capacity, elemSize);
  }

  lemma ReadWritten(items: Bytes, slot: nat, msg: Bytes)
    requires slot * |msg| + |msg| <= |items|
    ensures |Write(items, slot, msg)| == |items|
    ensures Read(Write(items, slot, msg), slot, |msg|) == msg
  {
  }

  lemma ReadOther(items: Bytes, j: nat, k: nat, msg: Bytes, capacity: nat)
    requires j != k && j < capacity && k < capacity && |items| == |msg| * capacity
    ensures j * |msg| + |msg| <= |items| && k * |msg| + |msg| <= |items|
    ensures Read(Write(items, k, msg), j, |msg|) == Read(items, j, |msg|)
  {
    SlotInArea(j, capacity, |msg|);
    SlotInArea(k, capacity, |msg|);
    if j < k {
      SlotsDisjoint(j, k, capacity, |msg|);
    } else {
      SlotsDisjoint(k, j, capacity, |msg|);
    }
  }

  /** `mc_create` asks for offset + elem_size * capacity bytes, in 64-bit arithmetic. Every slot
      lies within what it asks for exactly when that arithmetic does not overflow. */
  lemma TotalSizeSuffices(offset: nat, elemSize: nat, capacity: nat)
    requires offset < SIZES && capacity > 0
    ensures var total := (offset + (elemSize * capacity) % SIZES) % SIZES;
            (forall k: nat {:trigger k * elemSize} :: k < capacity ==> offset + k * elemSize + elemSize <= total) <==>
            offset + elemSize * capacity < SIZES
  {
    var total := (offset + (elemSize * capacity) % SIZES) % SIZES;
    if offset + elemSize * capacity < SIZES {
      forall k: nat | k < capacity ensures offset + k * elemSize + elemSize <= total {
        SlotInArea(k, capacity, elemSize);
      }
    } else {
      var k := capacity - 1;
      assert (k + 1) * elemSize == k * elemSize + elemSize;
      assert offset + k * elemSize + elemSize == offset + elemSize * capacity > total;
    }
  }

  // ---------------------------------------------------------------- free-running counters

  lemma Multiples(d: int, c: nat)
    ensures d == 0 || d * c >= c || d * c + c <= 0
  {
  }

  lemma ModUnique(x: int, q: int, r: nat, c: nat)
    requires r < c && x == q * c + r
    ensures x % c == r
  {
    var d := x / c - q;
    assert x == c * (x / c) + x % c;
    assert d * c == r - x % c;
    Multiples(d, c);
  }

  /** While the counter has not wrapped, or if the capacity divides 2^64, the slot is that of an
      unbounded counter. */
  lemma SlotIsMod(n: nat, capacity: nat)
    requires capacity > 0 && (n < SIZES || SIZES % capacity == 0)
    ensures Slot(n, capacity) == n % capacity
  {
    if SIZES % capacity == 0 && n >= SIZES {
      var w := n % SIZES;
      var a, b := n / SIZES, SIZES / capacity;
      assert n == SIZES * a + w;
      assert SIZES == capacity * b;
      assert w == capacity * (w / capacity) + w % capacity;
      calc {
        n;
        capacity * b * a + w;
        { assert capacity * b * a == (b * a) * capacity; }
        (b * a) * capacity + (w / capacity) * capacity + w % capacity;
        (b * a + w / capacity) * capacity + w % capacity;
      }
      ModUnique(n, b * a + w / capacity, w % capacity, capacity);
    }
  }

  /** Free-running counters agree with unbounded ones for ever exactly when the capacity divides
      2^64. */
  lemma CountersAgreeExactly(capacity: nat)
    requires capacity > 0
    ensures (forall n: nat :: Slot(n, capacity) == n % capacity) <==> SIZES % capacity == 0
  {
    if SIZES % capacity == 0 {
      forall n: nat ensures Slot(n, capacity) == n % capacity {
        SlotIsMod(n, capacity);
      }
    } else {
      assert Slot(SIZES, capacity) == 0;
    }
  }

  lemma SlotsDiffer(n: nat, m: nat, capacity: nat)
    requires n < m < n + capacity && (m < SIZES || SIZES % capacity == 0)
    ensures Slot(n, capacity) != Slot(m, capacity)
  {
    SlotIsMod(n, capacity);
    SlotIsMod(m, capacity);
    ModsDiffer(n, m, capacity);
  }

  lemma ModsDiffer(n: nat, m: nat, c: nat)
    requires n < m < n + c
    ensures n % c != m % c
  {
    var d := m / c - n / c;
    assert n == c * (n / c) + n % c;
    assert m == c * (m / c) + m % c;
    assert d * c == m - n + n % c - m % c;
    Multiples(d, c);
  }

  // ---------------------------------------------------------------- steps

  /** Where a thread is inside `mc_put` or `mc_get`; idle threads are not in the map. */
  datatype Pc =
    | PutWaited(msg: Bytes) | PutLocked(msg: Bytes) | PutCopied | PutUnlocked
    | GetWaited | GetLocked | GetCopied(msg: Bytes) | GetUnlocked(msg: Bytes)

  datatype Mc = Mc(
    elemSize: nat,
    capacity: nat,
    items: Bytes,
    iput: nat,
    iget: nat,
    lock: Option<nat>,
    hasSpace: nat,
    hasItems: nat,
    pcs: map<nat, Pc>,
    puts: seq<Bytes>,   // history: messages copied in
    gets: seq<Bytes>)   // history: messages copied out

  datatype Event =
    | PutWait(thread: nat, msg: Bytes)
    | GetWait(thread: nat)
    | Lock(thread: nat)
    | Copy(thread: nat)
    | Unlock(thread: nat)
    | Post(thread: nat)

  function Start(elemSize: nat, capacity: nat, junk: Bytes): Mc {
    Mc(elemSize, capacity, junk, 0, 0, None, capacity, 0, map[], [], [])
  }

  predicate Enabled(m: Mc, e: Event) {
    match e
    case PutWait(t, msg) => t !in m.pcs && m.hasSpace > 0 && |msg| == m.elemSize
    case GetWait(t) => t !in m.pcs && m.hasItems > 0
    case Lock(t) => t in m.pcs && (m.pcs[t].PutWaited? || m.pcs[t].GetWaited?) && m.lock == None
    case Copy(t) => t in m.pcs && (m.pcs[t].PutLocked? || m.pcs[t].GetLocked?)
    case Unlock(t) => t in m.pcs && (m.pcs[t].PutCopied? || m.pcs[t].GetCopied?)
    case Post(t) => t in m.pcs && (m.pcs[t].PutUnlocked? || m.pcs[t].GetUnlocked?)
  }

  /** Sizes that no step changes, and enough for every slot to exist. */
  predicate Sized(m: Mc) {
    && |m.items| == m.elemSize * m.capacity
    && (m.capacity == 0 ==> m.pcs == map[] && m.hasSpace == 0 && m.hasItems == 0)
    && (forall t :: t in m.pcs && (m.pcs[t].PutWaited? || m.pcs[t].PutLocked?) ==>
          |m.pcs[t].msg| == m.elemSize)
  }

  function CopyIn(m: Mc, t: nat): Mc
    requires Sized(m) && t in m.pcs && m.pcs[t].PutLocked?
  {
    var slot := m.iput % m.capacity;
    SlotInArea(slot, m.capacity, m.elemSize);
    var msg := m.pcs[t].msg;
    m.(items := Write(m.items, slot, msg), iput := (m.iput + 1) % SIZES,
       pcs := m.pcs[t := PutCopied], puts := m.puts + [msg])
  }

  function CopyOut(m: Mc, t: nat): Mc
    requires Sized(m) && t in m.pcs && m.pcs[t].GetLocked?
  {
    var slot := m.iget % m.capacity;
    SlotInArea(slot, m.capacity, m.elemSize);
    var msg := Read(m.items, slot, m.elemSize);
    m.(iget := (m.iget + 1) % SIZES, pcs := m.pcs[t := GetCopied(msg)], gets := m.gets + [msg])
  }

  function Next(m: Mc, e: Event): Mc
    requires Sized(m) && Enabled(m, e)
  {
    match e
    case PutWait(t, msg) => m.(hasSpace := m.hasSpace - 1, pcs := m.pcs[t := PutWaited(msg)])
    case GetWait(t) => m.(hasItems := m.hasItems - 1, pcs := m.pcs[t := GetWaited])
    case Lock(t) =>
      m.(lock := Some(t), pcs := m.pcs[t := if m.pcs[t].PutWaited? then PutLocked(m.pcs[t].msg) else GetLocked])
    case Copy(t) => if m.pcs[t].PutLocked? then CopyIn(m, t) else CopyOut(m, t)
    case Unlock(t) =>
      m.(lock := None, pcs := m.pcs[t := if m.pcs[t].PutCopied? then PutUnlocked else GetUnlocked(m.pcs[t].msg)])
    case Post(t) =>
      if m.pcs[t].PutUnlocked? then m.(hasItems := m.hasItems + 1, pcs := m.pcs - {t})
      else m.(hasSpace := m.hasSpace + 1, pcs := m.pcs - {t})
  }

  // ---------------------------------------------------------------- the invariant

  /** A thread in a put before or after its copy, or in a get before or after its copy. */
  datatype Kind = BeforePut | AfterPut | BeforeGet | AfterGet

  function KindOf(pc: Pc): Kind {
    match pc
    case PutWaited(_) => BeforePut
    case PutLocked(_) => BeforePut
    case PutCopied => AfterPut
    case PutUnlocked => AfterPut
    case GetWaited => BeforeGet
    case GetLocked => BeforeGet
    case GetCopied(_) => AfterGet
    case GetUnlocked(_) => AfterGet
  }

  predicate HoldsLock(pc: Pc) {
    pc.PutLocked? || pc.PutCopied? || pc.GetLocked? || pc.GetCopied?
  }

  /** How many threads are at a kind of place. */
  ghost function Num(pcs: map<nat, Pc>, k: Kind): nat {
    Tally(pcs, pc => KindOf(pc) == k)
  }

  /** Threads between their wait and their post. */
  ghost function Between(pcs: map<nat, Pc>): nat {
    Num(pcs, BeforePut) + Num(pcs, AfterPut) + Num(pcs, BeforeGet) + Num(pcs, AfterGet)
  }

  /** Conservation of the two semaphores, and what is stored. */
  ghost predicate CountInv(m: Mc) {
    && m.hasSpace + m.hasItems + Between(m.pcs) == m.capacity
    && |m.puts| - |m.gets| == m.hasItems + Num(m.pcs, AfterPut) + Num(m.pcs, BeforeGet)
  }

  ghost predicate LockInv(m: Mc) {
    && (forall t :: t in m.pcs && HoldsLock(m.pcs[t]) ==> m.lock == Some(t))
    && (m.lock.Some? ==> m.lock.value in m.pcs && HoldsLock(m.pcs[m.lock.value]))
  }

  ghost predicate StoredAt(m: Mc, n: nat)
    requires n < |m.puts| && Sized(m)
  {
    m.capacity > 0 &&
    (SlotInArea(Slot(n, m.capacity), m.capacity, m.elemSize);
     Read(m.items, Slot(n, m.capacity), m.elemSize) == m.puts[n])
  }

  ghost predicate RingInv(m: Mc)
    requires Sized(m)
  {
    && m.gets <= m.puts
    && m.iput == |m.puts| % SIZES && m.iget == |m.gets| % SIZES
    && (forall n :: 0 <= n < |m.puts| ==> |m.puts[n]| == m.elemSize)
    && (forall n: nat :: |m.gets| <= n < |m.puts| ==> StoredAt(m, n))
  }

  ghost predicate Inv(m: Mc) {
    Sized(m) && CountInv(m) && LockInv(m) && RingInv(m)
  }

  lemma NextKeepsSize(m: Mc, e: Event)
    requires Sized(m) && Enabled(m, e)
    ensures var n := Next(m, e);
            Sized(n) && n.elemSize == m.elemSize && n.capacity == m.capacity
    ensures m.puts <= Next(m, e).puts && m.gets <= Next(m, e).gets
  {
  }

  lemma AllSet(pcs: map<nat, Pc>, t: nat, pc: Pc)
    ensures forall k :: Num(pcs[t := pc], k) ==
                        Num(pcs, k) - One(t in pcs && KindOf(pcs[t]) == k) + One(KindOf(pc) == k)
    ensures Between(pcs[t := pc]) == Between(pcs) + One(t !in pcs)
  {
    forall k ensures Num(pcs[t := pc], k) ==
                     Num(pcs, k) - One(t in pcs && KindOf(pcs[t]) == k) + One(KindOf(pc) == k) {
      TallySet(pcs, t, pc, x => KindOf(x) == k);
    }
  }

  lemma AllRemove(pcs: map<nat, Pc>, t: nat)
    requires t in pcs
    ensures forall k :: Num(pcs - {t}, k) == Num(pcs, k) - One(KindOf(pcs[t]) == k)
    ensures Between(pcs - {t}) == Between(pcs) - 1
  {
    forall k ensures Num(pcs - {t}, k) == Num(pcs, k) - One(KindOf(pcs[t]) == k) {
      TallyRemove(pcs, t, x => KindOf(x) == k);
    }
  }

  lemma NextKeepsCounts(m: Mc, e: Event)
    requires Sized(m) && CountInv(m) && Enabled(m, e)
    ensures CountInv(Next(m, e))
  {
    if e.Post? {
      PostKeepsCounts(m, e);
    } else if e.Copy? {
      CopyKeepsCounts(m, e);
    } else {
      AllSet(m.pcs, e.thread, Next(m, e).pcs[e.thread]);
    }
  }

  lemma CopyKeepsCounts(m: Mc, e: Event)
    requires Sized(m) && CountInv(m) && Enabled(m, e) && e.Copy?
    ensures CountInv(Next(m, e))
  {
    AllSet(m.pcs, e.thread, Next(m, e).pcs[e.thread]);
  }

  lemma PostKeepsCounts(m: Mc, e: Event)
    requires Sized(m) && CountInv(m) && Enabled(m, e) && e.Post?
    ensures CountInv(Next(m, e))
  {
    AllRemove(m.pcs, e.thread);
  }

  lemma NextKeepsLock(m: Mc, e: Event)
    requires Sized(m) && LockInv(m) && Enabled(m, e)
    ensures LockInv(Next(m, e))
  {
  }

  /** A putter at its copy has room, a getter at its copy has an item: no put overwrites an unread
      slot, no get reads an empty one, and neither divides by a zero capacity. */
  lemma CopiesAreGuarded(m: Mc, t: nat)
    requires CountInv(m) && t in m.pcs
    ensures KindOf(m.pcs[t]) == BeforePut ==> |m.puts| - |m.gets| < m.capacity
    ensures KindOf(m.pcs[t]) == BeforeGet ==> |m.gets| < |m.puts|
    ensures 0 <= |m.puts| - |m.gets| <= m.capacity
  {
    var k := KindOf(m.pcs[t]);
    TallyPositive(m.pcs, t, pc => KindOf(pc) == k);
    assert Num(m.pcs, k) > 0;
  }

  /** Fewer than 2^64 operations, or a capacity that divides 2^64. */
  ghost predicate Safe(m: Mc) {
    m.capacity == 0 || SIZES % m.capacity == 0 || |m.puts| <= SIZES
  }

  lemma Increment(n: nat)
    ensures (n % SIZES + 1) % SIZES == (n + 1) % SIZES
  {
  }

  lemma PutKeepsStored(m: Mc, t: nat, i: nat)
    requires Inv(m) && t in m.pcs && m.pcs[t].PutLocked? && Safe(CopyIn(m, t))
    requires |m.gets| <= i <= |m.puts|
    ensures StoredAt(CopyIn(m, t), i)
  {
    var n := CopyIn(m, t);
    var slot, new_ := Slot(|m.puts|, m.capacity), |m.puts|;
    var msg := m.pcs[t].msg;
    SlotInArea(slot, m.capacity, m.elemSize);
    assert n.items == Write(m.items, slot, msg);
    if i < new_ {
      assert StoredAt(m, i) && n.puts[i] == m.puts[i];
      CopiesAreGuarded(m, t);
      SlotsDiffer(i, new_, m.capacity);
      ReadOther(m.items, Slot(i, m.capacity), slot, msg, m.capacity);
    } else {
      ReadWritten(m.items, slot, msg);
    }
  }

  lemma PutCopyKeepsRing(m: Mc, t: nat)
    requires Inv(m) && t in m.pcs && m.pcs[t].PutLocked? && Safe(CopyIn(m, t))
    ensures RingInv(CopyIn(m, t))
  {
    Increment(|m.puts|);
    forall i: nat | |m.gets| <= i <= |m.puts| ensures StoredAt(CopyIn(m, t), i) {
      PutKeepsStored(m, t, i);
    }
  }

  lemma GetReadsNext(m: Mc, t: nat)
    requires Inv(m) && t in m.pcs && m.pcs[t].GetLocked?
    ensures |m.gets| < |m.puts| && CopyOut(m, t).gets == m.gets + [m.puts[|m.gets|]]
    ensures CopyOut(m, t).pcs[t].msg == m.puts[|m.gets|]
  {
    CopiesAreGuarded(m, t);
    assert StoredAt(m, |m.gets|);
  }

  lemma GetCopyKeepsRing(m: Mc, t: nat)
    requires Inv(m) && t in m.pcs && m.pcs[t].GetLocked?
    ensures RingInv(CopyOut(m, t))
  {
    Increment(|m.gets|);
    GetReadsNext(m, t);
    forall i: nat | |m.gets| < i < |m.puts| ensures StoredAt(CopyOut(m, t), i) {
      assert StoredAt(m, i);
    }
  }

  lemma OtherStepsKeepRing(m: Mc, e: Event)
    requires Inv(m) && Enabled(m, e) && !e.Copy?
    ensures RingInv(Next(m, e))
  {
    NextKeepsSize(m, e);
    var n := Next(m, e);
    forall i: nat | |n.gets| <= i < |n.puts| ensures StoredAt(n, i) {
      assert StoredAt(m, i);
    }
  }

  lemma NextKeepsInv(m: Mc, e: Event)
    requires Inv(m) && Enabled(m, e) && Safe(Next(m, e))
    ensures Inv(Next(m, e))
  {
    NextKeepsSize(m, e);
    NextKeepsCounts(m, e);
    NextKeepsLock(m, e);
    if !e.Copy? {
      OtherStepsKeepRing(m, e);
    } else if m.pcs[e.thread].PutLocked? {
      PutCopyKeepsRing(m, e.thread);
    } else {
      GetCopyKeepsRing(m, e.thread);
    }
  }

  // ---------------------------------------------------------------- runs

  ghost predicate IsRun(m: Mc, es: seq<Event>)
    requires Sized(m)
    decreases |es|
  {
    es == [] || (Enabled(m, es[0]) && (NextKeepsSize(m, es[0]); IsRun(Next(m, es[0]), es[1..])))
  }

  ghost function Run(m: Mc, es: seq<Event>): (end: Mc)
    requires Sized(m) && IsRun(m, es)
    ensures Sized(end) && end.elemSize == m.elemSize && end.capacity == m.capacity
    ensures |m.puts| <= |end.puts|
    decreases |es|
  {
    if es == [] then m else (NextKeepsSize(m, es[0]); Run(Next(m, es[0]), es[1..]))
  }

  lemma {:induction false} RunKeepsInv(m: Mc, es: seq<Event>)
    requires Inv(m) && IsRun(m, es) && Safe(Run(m, es))
    ensures Inv(Run(m, es))
    decreases |es|
  {
    if es != [] {
      NextKeepsSize(m, es[0]);
      NextKeepsInv(m, es[0]);
      RunKeepsInv(Next(m, es[0]), es[1..]);
    }
  }

  lemma StartHasInv(elemSize: nat, capacity: nat, junk: Bytes)
    requires |junk| == elemSize * capacity
    ensures Inv(Start(elemSize, capacity, junk))
  {
    assert forall k :: Num(map[], k) == 0;
  }

  /** For any number of threads and every interleaving of the steps: what was copied out is, byte
      for byte and in order, a prefix of what was copied in, at most `capacity` messages behind;
      every unread message is intact in its slot; and the semaphores conserve the capacity. */
  lemma {:induction false} ChannelIsFifo(elemSize: nat, capacity: nat, junk: Bytes, es: seq<Event>)
    requires |junk| == elemSize * capacity && IsRun(Start(elemSize, capacity, junk), es)
    requires Safe(Run(Start(elemSize, capacity, junk), es))
    ensures var m := Run(Start(elemSize, capacity, junk), es);
            && m.gets <= m.puts && |m.puts| - |m.gets| <= capacity
            && (forall n: nat :: |m.gets| <= n < |m.puts| ==> StoredAt(m, n))
            && m.hasSpace + m.hasItems + Between(m.pcs) == capacity
            && |m.puts| - |m.gets| == m.hasItems + Num(m.pcs, AfterPut) + Num(m.pcs, BeforeGet)
            && (forall t, u :: t in m.pcs && u in m.pcs && HoldsLock(m.pcs[t]) && HoldsLock(m.pcs[u]) ==> t == u)
  {
    StartHasInv(elemSize, capacity, junk);
    RunKeepsInv(Start(elemSize, capacity, junk), es);
  }

  /** The channels the echo programs create, of capacity 8 and 1, deliver in order for ever. */
  lemma ChannelsInUse(elemSize: nat, capacity: nat, junk: Bytes, es: seq<Event>)
    requires capacity == 8 || capacity == 1
    requires |junk| == elemSize * capacity && IsRun(Start(elemSize, capacity, junk), es)
    ensures var m := Run(Start(elemSize, capacity, junk), es);
            m.gets <= m.puts && |m.puts| - |m.gets| <= capacity
  {
    ChannelIsFifo(elemSize, capacity, junk, es);
  }

  predicate IsWait(e: Event) { e.PutWait? || e.GetWait? }

  /** A thread past its wait never holds up the others for good: while any thread is inside, one of
      those can step; and an empty channel of positive capacity lets a put or a get begin. */
  lemma InsideNeverStuck(m: Mc)
    requires Inv(m)
    ensures m.pcs != map[] ==> exists e :: !IsWait(e) && Enabled(m, e)
    ensures m.pcs == map[] && m.capacity > 0 ==> m.hasSpace > 0 || m.hasItems > 0
  {
    if m.pcs != map[] {
      var t :| t in m.pcs;
      var u := if m.lock.Some? then m.lock.value else t;
      if m.pcs[u].PutWaited? || m.pcs[u].GetWaited? {
        assert !IsWait(Lock(u)) && Enabled(m, Lock(u));
      } else if m.pcs[u].PutLocked? || m.pcs[u].GetLocked? {
        assert !IsWait(Copy(u)) && Enabled(m, Copy(u));
      } else if m.pcs[u].PutCopied? || m.pcs[u].GetCopied? {
        assert !IsWait(Unlock(u)) && Enabled(m, Unlock(u));
      } else {
        assert !IsWait(Post(u)) && Enabled(m, Post(u));
      }
    } else {
      assert forall k :: Num(m.pcs, k) == 0;
    }
  }

  // ---------------------------------------------------------------- refinement

  ghost function Abs(m: Mc): Spec.Chan<Bytes>
    requires |m.gets| <= |m.puts|
  {
    Spec.Chan(m.hasSpace, m.hasItems, m.puts[|m.gets|..])
  }

  /** What a step is to the users of the channel; taking and dropping the mutex is nothing. */
  ghost function OpOf(m: Mc, e: Event): Spec.Op<Bytes>
    requires Inv(m) && Enabled(m, e)
  {
    match e
    case PutWait(_, _) => Spec.WaitSpace
    case GetWait(_) => Spec.WaitItems
    case Lock(_) => Spec.Stutter
    case Unlock(_) => Spec.Stutter
    case Copy(t) =>
      if m.pcs[t].PutLocked? then Spec.Enqueue(m.pcs[t].msg)
      else Spec.Dequeue(Next(m, e).pcs[t].msg)
    case Post(t) => if m.pcs[t].PutUnlocked? then Spec.PostItems else Spec.PostSpace
  }

  /** Every step of the byte ring is a step of the FIFO channel; in particular the bytes a get
      hands to its thread are the head of the queue. */
  lemma StepRefines(m: Mc, e: Event)
    requires Inv(m) && Enabled(m, e) && Safe(Next(m, e))
    ensures |Next(m, e).gets| <= |Next(m, e).puts|
    ensures Spec.Enabled(Abs(m), OpOf(m, e))
    ensures Abs(Next(m, e)) == Spec.Next(Abs(m), OpOf(m, e))
    ensures |Abs(m).queue| <= m.capacity
  {
    NextKeepsInv(m, e);
    if e.Copy? {
      CopiesAreGuarded(m, e.thread);
      if m.pcs[e.thread].GetLocked? {
        GetReadsNext(m, e.thread);
      }
    }
  }

  // ---------------------------------------------------------------- whole calls

  /** Nobody is inside the channel. */
  predicate Alone(m: Mc) {
    Sized(m) && m.capacity > 0 && m.pcs == map[] && m.lock == None
  }

  /** One whole `mc_put` with nobody else about. */
  ghost function WholePut(m: Mc, msg: Bytes): Mc
    requires Alone(m) && m.hasSpace > 0 && |msg| == m.elemSize
  {
    SlotInArea(m.iput % m.capacity, m.capacity, m.elemSize);
    m.(items := Write(m.items, m.iput % m.capacity, msg), iput := (m.iput + 1) % SIZES,
       hasSpace := m.hasSpace - 1, hasItems := m.hasItems + 1, puts := m.puts + [msg])
  }

  /** One whole `mc_get`. */
  ghost function WholeGet(m: Mc): Mc
    requires Alone(m) && m.hasItems > 0
  {
    SlotInArea(m.iget % m.capacity, m.capacity, m.elemSize);
    m.(iget := (m.iget + 1) % SIZES, hasSpace := m.hasSpace + 1, hasItems := m.hasItems - 1,
       gets := m.gets + [Read(m.items, m.iget % m.capacity, m.elemSize)])
  }

  /** Five enabled steps in a row. */
  ghost predicate Five(n: Mc, e1: Event, e2: Event, e3: Event, e4: Event, e5: Event, end: Mc)
    requires Sized(n)
  {
    Enabled(n, e1) &&
    var n1 := Next(n, e1);
    Sized(n1) && Enabled(n1, e2) &&
    var n2 := Next(n1, e2);
    Sized(n2) && Enabled(n2, e3) &&
    var n3 := Next(n2, e3);
    Sized(n3) && Enabled(n3, e4) &&
    var n4 := Next(n3, e4);
    Sized(n4) && Enabled(n4, e5) && Next(n4, e5) == end
  }

  lemma PutComputes(n: Mc, msg: Bytes)
    requires Alone(n) && n.hasSpace > 0 && |msg| == n.elemSize
    ensures Five(n, PutWait(0, msg), Lock(0), Copy(0), Unlock(0), Post(0), WholePut(n, msg))
  {
    var n1 := Next(n, PutWait(0, msg));
    var n2 := Next(n1, Lock(0));
    assert n2 == n.(hasSpace := n.hasSpace - 1, lock := Some(0), pcs := map[0 := PutLocked(msg)]);
    NextKeepsSize(n2, Copy(0));
    var n3 := Next(n2, Copy(0));
    var n4 := Next(n3, Unlock(0));
    assert Next(n4, Post(0)) == WholePut(n, msg);
  }

  lemma GetComputes(n: Mc)
    requires Alone(n) && n.hasItems > 0
    ensures Five(n, GetWait(0), Lock(0), Copy(0), Unlock(0), Post(0), WholeGet(n))
  {
    var n1 := Next(n, GetWait(0));
    var n2 := Next(n1, Lock(0));
    assert n2 == n.(hasItems := n.hasItems - 1, lock := Some(0), pcs := map[0 := GetLocked]);
    NextKeepsSize(n2, Copy(0));
    var n3 := Next(n2, Copy(0));
    var n4 := Next(n3, Unlock(0));
    assert Next(n4, Post(0)) == WholeGet(n);
  }

  lemma FiveKeepInv(n: Mc, e1: Event, e2: Event, e3: Event, e4: Event, e5: Event, end: Mc)
    requires Inv(n) && Five(n, e1, e2, e3, e4, e5, end) && Safe(end)
    ensures Inv(end)
  {
    var n1 := Next(n, e1);
    var n2 := Next(n1, e2);
    var n3 := Next(n2, e3);
    var n4 := Next(n3, e4);
    NextKeepsSize(n4, e5);
    NextKeepsSize(n3, e4);
    NextKeepsSize(n2, e3);
    NextKeepsSize(n1, e2);
    NextKeepsSize(n, e1);
    NextKeepsInv(n, e1);
    NextKeepsInv(n1, e2);
    NextKeepsInv(n2, e3);
    NextKeepsInv(n3, e4);
    NextKeepsInv(n4, e5);
  }

  /** A whole put appends to the queue the channel stands for. */
  lemma WholePutQueues(m: Mc, msg: Bytes)
    requires Inv(m) && Alone(m) && m.hasSpace > 0 && |msg| == m.elemSize && Safe(WholePut(m, msg))
    ensures var n := WholePut(m, msg);
            && Inv(n) && Alone(n)
            && Abs(n) == Spec.Chan(m.hasSpace - 1, m.hasItems + 1, Abs(m).queue + [msg])
  {
    PutComputes(m, msg);
    FiveKeepInv(m, PutWait(0, msg), Lock(0), Copy(0), Unlock(0), Post(0), WholePut(m, msg));
  }

  /** A whole get takes the head of that queue. */
  lemma WholeGetDequeues(m: Mc)
    requires Inv(m) && Alone(m) && m.hasItems > 0 && Safe(m)
    ensures |m.gets| < |m.puts|
    ensures var n := WholeGet(m);
            && Inv(n) && Alone(n)
            && Abs(n) == Spec.Chan(m.hasSpace + 1, m.hasItems - 1, Abs(m).queue[1..])
            && n.gets == m.gets + [Abs(m).queue[0]]
  {
    var n := WholeGet(m);
    GetComputes(m);
    FiveKeepInv(m, GetWait(0), Lock(0), Copy(0), Unlock(0), Post(0), n);
    assert n.gets[|m.gets|] == n.puts[|m.gets|];
  }

  // ---------------------------------------------------------------- the code

  method MemCopy(dst: array<byte>, at: nat, src: array<byte>, from: nat, n: nat)
    requires dst != src && at + n <= dst.Length && from + n <= src.Length
    modifies dst
    ensures dst[..] == old(dst[..at]) + src[from..from + n] + old(dst[at + n..])
  {
    for i := 0 to n
      invariant forall j :: at <= j < at + i ==> dst[j] == src[from + (j - at)]
      invariant forall j :: 0 <= j < dst.Length && !(at <= j < at + i) ==> dst[j] == old(dst[j])
    {
      dst[at + i] := src[from + i];
    }
  }

  class MemChannel {
    const elemSize: nat
    const capacity: nat
    const items: array<byte>
    var iput: nat
    var iget: nat
    var lock: Option<nat>
    var hasSpace: nat
    var hasItems: nat
    ghost var pcs: map<nat, Pc>
    ghost var puts: seq<Bytes>
    ghost var gets: seq<Bytes>

    ghost function View(): Mc reads this, items {
      Mc(elemSize, capacity, items[..], iput, iget, lock, hasSpace, hasItems, pcs, puts, gets)
    }

    /** `mc_create`. */
    constructor (elemSize: nat, capacity: nat)
      ensures fresh(items) && Inv(View()) && View() == Start(elemSize, capacity, items[..])
    {
      this.elemSize, this.capacity := elemSize, capacity;
      items := new byte[elemSize * capacity];
      iput, iget, lock, hasSpace, hasItems := 0, 0, None, capacity, 0;
      pcs, puts, gets := map[], [], [];
      new;
      StartHasInv(elemSize, capacity, items[..]);
    }

    method WaitSpace(ghost thread: nat, ghost msg: Bytes)
      requires Sized(View()) && Enabled(View(), PutWait(thread, msg))
      modifies this
      ensures View() == Next(old(View()), PutWait(thread, msg))
    {
      hasSpace := hasSpace - 1;
      pcs := pcs[thread := PutWaited(msg)];
    }

    method WaitItems(ghost thread: nat)
      requires Sized(View()) && Enabled(View(), GetWait(thread))
      modifies this
      ensures View() == Next(old(View()), GetWait(thread))
    {
      hasItems := hasItems - 1;
      pcs := pcs[thread := GetWaited];
    }

    method TakeLock(thread: nat)
      requires Sized(View()) && Enabled(View(), Event.Lock(thread))
      modifies this
      ensures View() == Next(old(View()), Event.Lock(thread))
    {
      lock := Some(thread);
      pcs := pcs[thread := if pcs[thread].PutWaited? then PutLocked(pcs[thread].msg) else GetLocked];
    }

    /** The critical section of `mc_put`. */
    method PutItem(ghost thread: nat, item: array<byte>)
      requires Sized(View()) && item != items
      requires thread in pcs && pcs[thread] == PutLocked(item[..])
      modifies this, items
      ensures View() == Next(old(View()), Copy(thread))
    {
      var slot := iput % capacity;
      SlotInArea(slot, capacity, elemSize);
      iput := (iput + 1) % SIZES;
      MemCopy(items, slot * elemSize, item, 0, elemSize);
      assert item[0..0 + elemSize] == item[..];
      pcs, puts := pcs[thread := PutCopied], puts + [item[..]];
      assert items[..] == Write(old(items[..]), slot, item[..]);
    }

    /** The critical section of `mc_get`. */
    method GetItem(ghost thread: nat, item: array<byte>)
      requires Sized(View()) && item != items && item.Length == elemSize
      requires thread in pcs && pcs[thread].GetLocked?
      modifies this, item
      ensures View() == Next(old(View()), Copy(thread))
      ensures pcs[thread] == GetCopied(item[..])
    {
      var slot := iget % capacity;
      SlotInArea(slot, capacity, elemSize);
      iget := (iget + 1) % SIZES;
      MemCopy(item, 0, items, slot * elemSize, elemSize);
      assert item[..] == Read(items[..], slot, elemSize);
      pcs, gets := pcs[thread := GetCopied(item[..])], gets + [item[..]];
    }

    method DropLock(ghost thread: nat)
      requires Sized(View()) && Enabled(View(), Event.Unlock(thread))
      modifies this
      ensures View() == Next(old(View()), Event.Unlock(thread))
    {
      lock := None;
      pcs := pcs[thread := if pcs[thread].PutCopied? then PutUnlocked else GetUnlocked(pcs[thread].msg)];
    }

    method PostItems(ghost thread: nat)
      requires Sized(View()) && thread in pcs && pcs[thread].PutUnlocked?
      modifies this
      ensures View() == Next(old(View()), Event.Post(thread))
    {
      hasItems := hasItems + 1;
      pcs := pcs - {thread};
    }

    method PostSpace(ghost thread: nat)
      requires Sized(View()) && thread in pcs && pcs[thread].GetUnlocked?
      modifies this
      ensures View() == Next(old(View()), Event.Post(thread))
    {
      hasSpace := hasSpace + 1;
      pcs := pcs - {thread};
    }

    /** `mc_put`, when it need not wait and nobody else is inside. */
    method Put(item: array<byte>)
      requires Alone(View()) && hasSpace > 0 && item != items && item.Length == elemSize
      modifies this, items
      ensures View() == WholePut(old(View()), item[..])
    {
      PutComputes(View(), item[..]);
      WaitSpace(0, item[..]);
      TakeLock(0);
      PutItem(0, item);
      DropLock(0);
      PostItems(0);
    }

    /** `mc_get`, likewise. */
    method Get(item: array<byte>)
      requires Alone(View()) && hasItems > 0 && item != items && item.Length == elemSize
      modifies this, item
      ensures View() == WholeGet(old(View())) && gets == old(gets) + [item[..]]
    {
      GetComputes(View());
      WaitItems(0);
      TakeLock(0);
      GetItem(0, item);
      DropLock(0);
      PostSpace(0);
    }
  }
}
