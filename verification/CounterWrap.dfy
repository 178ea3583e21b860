/** What happens to the channel's FIFO order when its free-running counters wrap: it survives
    exactly when the capacity divides 2^64. */
module CounterWrap {
  import opened Commons
  import opened MemChannels

  ghost predicate Reaches(m: Mc, n: Mc)
    requires Sized(m)
  {
    exists es :: IsRun(m, es) && Run(m, es) == n
  }

  lemma {:induction false} RunAppend(m: Mc, es: seq<Event>, fs: seq<Event>)
    requires Sized(m) && IsRun(m, es) && IsRun(Run(m, es), fs)
    ensures IsRun(m, es + fs) && Run(m, es + fs) == Run(Run(m, es), fs)
    decreases |es|
  {
    if es == [] {
      assert es + fs == fs;
    } else {
      NextKeepsSize(m, es[0]);
      RunAppend(Next(m, es[0]), es[1..], fs);
      assert (es + fs)[1..] == es[1..] + fs;
    }
  }

  lemma ReachesTrans(m: Mc, n: Mc, o: Mc)
    requires Sized(m) && Sized(n) && Reaches(m, n) && Reaches(n, o)
    ensures Reaches(m, o)
  {
    var es :| IsRun(m, es) && Run(m, es) == n;
    var fs :| IsRun(n, fs) && Run(n, fs) == o;
    RunAppend(m, es, fs);
  }

  lemma ReachesStep(m: Mc, n: Mc, e: Event)
    requires Sized(m) && Sized(n) && Reaches(m, n) && Enabled(n, e)
    ensures Sized(Next(n, e)) && Reaches(m, Next(n, e))
  {
    NextKeepsSize(n, e);
    assert IsRun(Next(n, e), [][..]) && [e][1..] == [][..];
    assert IsRun(n, [e]) && Run(n, [e]) == Next(n, e);
    ReachesTrans(m, n, Next(n, e));
  }

  /** Nobody is inside the channel, which has taken p messages and given back g. */
  ghost predicate Quiet(m: Mc, p: nat, g: nat) {
    && Alone(m)
    && |m.puts| == p && |m.gets| == g <= p <= g + m.capacity
    && m.iput == p % SIZES && m.iget == g % SIZES
    && m.hasItems == p - g && m.hasSpace == m.capacity - (p - g)
  }

  lemma FiveReach(m: Mc, n: Mc, e1: Event, e2: Event, e3: Event, e4: Event, e5: Event, end: Mc)
    requires Sized(m) && Sized(n) && Reaches(m, n) && Five(n, e1, e2, e3, e4, e5, end)
    ensures Sized(end) && Reaches(m, end)
  {
    ReachesStep(m, n, e1);
    ReachesStep(m, Next(n, e1), e2);
    ReachesStep(m, Next(Next(n, e1), e2), e3);
    ReachesStep(m, Next(Next(Next(n, e1), e2), e3), e4);
    ReachesStep(m, Next(Next(Next(Next(n, e1), e2), e3), e4), e5);
  }

  lemma PutReaches(m: Mc, n: Mc, p: nat, g: nat, msg: Bytes)
    requires Sized(m) && Reaches(m, n) && Quiet(n, p, g) && p - g < n.capacity && |msg| == n.elemSize
    ensures Reaches(m, WholePut(n, msg)) && Quiet(WholePut(n, msg), p + 1, g)
  {
    PutComputes(n, msg);
    FiveReach(m, n, PutWait(0, msg), Lock(0), Copy(0), Unlock(0), Post(0), WholePut(n, msg));
    Increment(p);
  }

  lemma GetReaches(m: Mc, n: Mc, p: nat, g: nat)
    requires Sized(m) && Reaches(m, n) && Quiet(n, p, g) && g < p
    ensures Reaches(m, WholeGet(n)) && Quiet(WholeGet(n), p, g + 1)
  {
    GetComputes(n);
    FiveReach(m, n, GetWait(0), Lock(0), Copy(0), Unlock(0), Post(0), WholeGet(n));
    Increment(g);
  }

  /** The channel can be empty after any number of puts and gets. */
  lemma {:induction false} EmptyAfter(m: Mc, n: nat, msg: Bytes) returns (q: Mc)
    requires Quiet(m, 0, 0) && |msg| == m.elemSize
    ensures Quiet(q, n, n) && Reaches(m, q) && q.capacity == m.capacity && q.elemSize == m.elemSize
    decreases n
  {
    if n == 0 {
      assert IsRun(m, []) && Run(m, []) == m;
      q := m;
    } else {
      var before := EmptyAfter(m, n - 1, msg);
      PutReaches(m, before, n - 1, n - 1, msg);
      GetReaches(m, WholePut(before, msg), n, n - 1);
      q := WholeGet(WholePut(before, msg));
    }
  }

  /** ... and hold any number of messages up to its capacity. */
  lemma {:induction false} FilledAfter(m: Mc, n: nat, k: nat, msg: Bytes) returns (q: Mc)
    requires Quiet(m, 0, 0) && |msg| == m.elemSize && k <= m.capacity
    ensures Quiet(q, n + k, n) && Reaches(m, q) && q.capacity == m.capacity && q.elemSize == m.elemSize
    ensures forall i :: n <= i < n + k ==> q.puts[i] == msg
    decreases k
  {
    if k == 0 {
      q := EmptyAfter(m, n, msg);
    } else {
      var before := FilledAfter(m, n, k - 1, msg);
      PutReaches(m, before, n + k - 1, n, msg);
      q := WholePut(before, msg);
    }
  }

  lemma FirstInSlotZero(capacity: nat)
    requires capacity > 0
    ensures (SIZES - SIZES % capacity) % capacity == 0
  {
    assert SIZES == capacity * (SIZES / capacity) + SIZES % capacity;
    ModUnique(SIZES - SIZES % capacity, SIZES / capacity, 0, capacity);
  }

  /** Put number 2^64 overwrites the oldest unread message, number `first`, in slot 0. */
  lemma WrapOverwrites(full: Mc, first: nat, a: Bytes, b: Bytes)
    requires Quiet(full, SIZES, first) && first < SIZES && first % full.capacity == 0
    requires SIZES - first < full.capacity
    requires full.puts[first] == a && |b| == full.elemSize && a != b
    ensures Quiet(WholePut(full, b), SIZES + 1, first)
    ensures !(WholeGet(WholePut(full, b)).gets <= WholeGet(WholePut(full, b)).puts)
  {
    var over := WholePut(full, b);
    assert full.iput == 0 && over.iput == 1 == (SIZES + 1) % SIZES;
    assert over.iget % over.capacity == 0;
    SlotInArea(0, full.capacity, full.elemSize);
    ReadWritten(full.items, 0, b);
    assert WholeGet(over).gets[first] == b && over.puts[first] == a;
  }

  /** If the capacity does not divide 2^64, some run hands out a message out of turn. */
  lemma WrapBreaksOrder(elemSize: nat, capacity: nat, junk: Bytes) returns (es: seq<Event>)
    requires elemSize > 0 && capacity > 0 && |junk| == elemSize * capacity && SIZES % capacity != 0
    ensures IsRun(Start(elemSize, capacity, junk), es)
    ensures !(Run(Start(elemSize, capacity, junk), es).gets <= Run(Start(elemSize, capacity, junk), es).puts)
  {
    var start := Start(elemSize, capacity, junk);
    var r := SIZES % capacity;
    var a: Bytes, b: Bytes := seq(elemSize, _ => 1), seq(elemSize, _ => 2);
    assert a[0] != b[0];
    FirstInSlotZero(capacity);
    var full := FilledAfter(start, SIZES - r, r, a);
    WrapOverwrites(full, SIZES - r, a, b);
    PutReaches(start, full, SIZES, SIZES - r, b);
    GetReaches(start, WholePut(full, b), SIZES + 1, SIZES - r);
    es :| IsRun(start, es) && Run(start, es) == WholeGet(WholePut(full, b));
  }

  /** The channel delivers in order on every run exactly when the capacity divides 2^64. */
  lemma FifoForeverExactly(elemSize: nat, capacity: nat, junk: Bytes)
    requires elemSize > 0 && capacity > 0 && |junk| == elemSize * capacity
    ensures (forall es :: IsRun(Start(elemSize, capacity, junk), es) ==>
               var m := Run(Start(elemSize, capacity, junk), es); m.gets <= m.puts) <==>
            SIZES % capacity == 0
  {
    if SIZES % capacity == 0 {
      forall es | IsRun(Start(elemSize, capacity, junk), es)
        ensures var m := Run(Start(elemSize, capacity, junk), es); m.gets <= m.puts
      {
        ChannelIsFifo(elemSize, capacity, junk, es);
      }
    } else {
      var es := WrapBreaksOrder(elemSize, capacity, junk);
    }
  }
}
