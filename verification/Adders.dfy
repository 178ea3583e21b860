/** The count-down latch and the parallel adder (18-thread-pool): `par_adder` cuts an array into
    one slice per thread, lets a pool sum the slices, awaits a latch and adds the totals.

    The state machine lets the slice tasks and the awaiting thread interleave one memory access at
    a time; the loops of the source are at the end. */
module Adders {
  import opened Commons

  // ---------------------------------------------------------------- sums and slices

  function SumRange(v: seq<int>, lo: int, hi: int): int
    requires hi <= |v|
    decreases hi - lo
  {
    if lo < 0 || lo >= hi then 0 else SumRange(v, lo, hi - 1) + v[hi - 1]
  }

  lemma {:induction false} SumRangeSplit(v: seq<int>, a: nat, b: nat, c: nat)
    requires a <= b <= c <= |v|
    ensures SumRange(v, a, c) == SumRange(v, a, b) + SumRange(v, b, c)
    decreases c
  {
    if b < c {
      SumRangeSplit(v, a, b, c - 1);
    }
  }

  /** No partial sum of up to 2^32 32-bit values leaves the 64-bit range of `long`. */
  lemma {:induction false} PartialSumsFit(v: seq<int>, lo: nat, hi: nat)
    requires lo <= hi <= |v| <= 0x1_0000_0000
    requires forall i :: 0 <= i < |v| ==> -0x8000_0000 <= v[i] <= 0x7fff_ffff
    ensures -0x8000_0000 * (hi - lo) <= SumRange(v, lo, hi) <= 0x7fff_ffff * (hi - lo)
    ensures -0x8000_0000_0000_0000 <= SumRange(v, lo, hi) <= 0x7fff_ffff_ffff_ffff
    decreases hi
  {
    if lo < hi {
      PartialSumsFit(v, lo, hi - 1);
    }
  }

  function Region(nvals: nat, nthreads: nat): nat
    requires nthreads > 0
  {
    (nvals + (nthreads - 1)) / nthreads
  }

  /** Where slice k starts; past the end of the array for slices that get nothing. */
  function Begin(nvals: nat, nthreads: nat, k: nat): nat
    requires nthreads > 0
  {
    k * Region(nvals, nthreads)
  }

  function End(nvals: nat, nthreads: nat, k: nat): nat
    requires nthreads > 0
  {
    var end := Begin(nvals, nthreads, k) + Region(nvals, nthreads);
    if end > nvals then nvals else end
  }

  lemma RegionCovers(nvals: nat, nthreads: nat)
    requires nthreads > 0
    ensures Begin(nvals, nthreads, nthreads) >= nvals
    ensures nvals > 0 ==> Region(nvals, nthreads) > 0
  {
    var m := nvals + (nthreads - 1);
    assert m == nthreads * (m / nthreads) + m % nthreads;
  }

  lemma BeginNext(nvals: nat, nthreads: nat, k: nat)
    requires nthreads > 0
    ensures Begin(nvals, nthreads, k + 1) == Begin(nvals, nthreads, k) + Region(nvals, nthreads)
  {
  }

  /** The slices partition the array: every index is in exactly the slice its quotient names. */
  lemma SlicesPartition(nvals: nat, nthreads: nat, i: nat, k: nat)
    requires nthreads > 0 && i < nvals && k < nthreads
    ensures Region(nvals, nthreads) > 0 && i / Region(nvals, nthreads) < nthreads
    ensures Begin(nvals, nthreads, k) <= i < End(nvals, nthreads, k) <==> k == i / Region(nvals, nthreads)
  {
    RegionCovers(nvals, nthreads);
    var r := Region(nvals, nthreads);
    var q := i / r;
    assert i == r * q + i % r;
    if q >= nthreads {
      MulMonotone(nthreads, q, r);
      assert false;
    }
    if k < q {
      MulMonotone(k + 1, q, r);
      BeginNext(nvals, nthreads, k);
    } else if q < k {
      MulMonotone(q + 1, k, r);
      assert (q + 1) * r == q * r + r;
    }
  }

  /** A slice within the array and no longer than its fair share, nvals / nthreads rounded up. */
  predicate IsFair(begin: nat, end: nat, nvals: nat, nthreads: nat) {
    end <= nvals && (begin < end ==> (end - begin - 1) * nthreads < nvals)
  }

  /** What the slice after begin..end must be: as far as there is more to sum, the two meet and the first
      has full length; otherwise the second is empty. */
  predicate Meets(begin: nat, end: nat, nextBegin: nat, nextEnd: nat, nvals: nat, length: nat) {
    if end < nvals then nextBegin == end && end == begin + length else nextEnd <= nextBegin
  }

  lemma RegionIsFair(nvals: nat, nthreads: nat, length: nat)
    requires nthreads > 0 && 0 < length <= Region(nvals, nthreads)
    ensures (length - 1) * nthreads < nvals
  {
    var r, m := Region(nvals, nthreads), nvals + (nthreads - 1);
    assert m == nthreads * r + m % nthreads;
    MulMonotone(length, r, nthreads);
    assert r * nthreads == nthreads * r;
    assert (length - 1) * nthreads == length * nthreads - nthreads;
  }

  lemma EndsApart(nvals: nat, nthreads: nat, k: nat)
    requires nthreads > 0
    ensures var next := Begin(nvals, nthreads, k + 1);
            End(nvals, nthreads, k) == if next > nvals then nvals else next
    ensures Begin(nvals, nthreads, k + 1) == Begin(nvals, nthreads, k) + Region(nvals, nthreads)
    ensures Begin(nvals, nthreads, 0) == 0 && Begin(nvals, nthreads, 1) == Region(nvals, nthreads)
  {
    BeginNext(nvals, nthreads, k);
  }

  /** The work is shared fairly: consecutive slices meet, all but the last non-empty one are equally long,
      and none is longer than its fair share. */
  lemma SlicesAreFair(nvals: nat, nthreads: nat, k: nat)
    requires nthreads > 0 && k < nthreads
    ensures Begin(nvals, nthreads, 0) == 0 && End(nvals, nthreads, nthreads - 1) == nvals
    ensures IsFair(Begin(nvals, nthreads, k), End(nvals, nthreads, k), nvals, nthreads)
    ensures Meets(Begin(nvals, nthreads, k), End(nvals, nthreads, k),
                  Begin(nvals, nthreads, k + 1), End(nvals, nthreads, k + 1), nvals, End(nvals, nthreads, 0))
  {
    RegionCovers(nvals, nthreads);
    EndsApart(nvals, nthreads, 0);
    EndsApart(nvals, nthreads, k);
    EndsApart(nvals, nthreads, k + 1);
    EndsApart(nvals, nthreads, nthreads - 1);
    var length := End(nvals, nthreads, k) - Begin(nvals, nthreads, k);
    if length > 0 {
      RegionIsFair(nvals, nthreads, length);
    }
  }

  /** The part of the array the first k slices cover. */
  function Covered(nvals: nat, nthreads: nat, k: nat): (c: nat)
    requires nthreads > 0
    ensures c <= nvals
  {
    if Begin(nvals, nthreads, k) > nvals then nvals else Begin(nvals, nthreads, k)
  }

  function SliceSum(v: seq<int>, nthreads: nat, k: nat): int
    requires nthreads > 0
  {
    SumRange(v, Begin(|v|, nthreads, k), End(|v|, nthreads, k))
  }

  lemma AddSlice(v: seq<int>, nthreads: nat, k: nat)
    requires nthreads > 0
    ensures SumRange(v, 0, Covered(|v|, nthreads, k + 1)) ==
            SumRange(v, 0, Covered(|v|, nthreads, k)) + SliceSum(v, nthreads, k)
  {
    BeginNext(|v|, nthreads, k);
    if Begin(|v|, nthreads, k) <= |v| {
      SumRangeSplit(v, 0, Covered(|v|, nthreads, k), Covered(|v|, nthreads, k + 1));
    }
  }

  /** The slice sums add up to the sum of the array. */
  lemma {:induction false} SliceSumsAddUp(v: seq<int>, nthreads: nat, totals: seq<int>, n: nat)
    requires nthreads > 0 && n <= |totals|
    requires forall k :: 0 <= k < n ==> totals[k] == SliceSum(v, nthreads, k)
    ensures SumRange(totals, 0, n) == SumRange(v, 0, Covered(|v|, nthreads, n))
    ensures n == nthreads ==> SumRange(totals, 0, n) == SumRange(v, 0, |v|)
  {
    RegionCovers(|v|, nthreads);
    if n > 0 {
      SliceSumsAddUp(v, nthreads, totals, n - 1);
      AddSlice(v, nthreads, n - 1);
    }
  }

  // ---------------------------------------------------------------- latch

  datatype Latch = Latch(counter: int, sleeping: set<nat>, notified: set<nat>)

  function AfterCountDown(l: Latch): Latch {
    if l.counter > 0 then
      var c := l.counter - 1;
      if c == 0 then Latch(c, {}, l.notified + l.sleeping) else l.(counter := c)
    else l
  }

  /** One run of the loop test in `countdownlatch_await`: the thread passes or goes to sleep. */
  function AfterAwaitTest(l: Latch, t: nat): Latch {
    if l.counter > 0 then Latch(l.counter, l.sleeping + {t}, l.notified - {t})
    else l.(notified := l.notified - {t})
  }

  function Wake(l: Latch, t: nat): Latch {
    Latch(l.counter, l.sleeping - {t}, l.notified + {t})
  }

  // ---------------------------------------------------------------- the parallel adder

  datatype Task = Unsubmitted | Summing(p: nat, acc: int) | Written | Counted

  datatype Main = Submitting(n: nat) | Awaiting | Adding(i: nat, total: int) | Returned(result: int)

  datatype Adder = Adder(
    vals: seq<int>,
    nthreads: nat,
    main: Main,
    tasks: seq<Task>,
    totals: seq<int>,   // garbage until written
    latch: Latch)

  /** Thread 0 is the one that called `par_adder`; `Spurious` wakes it from the latch. */
  datatype Event = Submit | Access(k: nat) | Write(k: nat) | Count(k: nat) | Await | Spurious | AddTotal

  function Start(vals: seq<int>, nthreads: nat, garbage: seq<int>): Adder {
    Adder(vals, nthreads, Submitting(0), seq(nthreads, _ => Unsubmitted), garbage,
          Latch(nthreads, {}, {}))
  }

  predicate Enabled(a: Adder, e: Event)
    requires a.nthreads > 0
  {
    match e
    case Submit => a.main.Submitting?
    case Access(k) =>
      k < |a.tasks| && a.tasks[k].Summing? && a.tasks[k].p < End(|a.vals|, a.nthreads, k)
    case Write(k) =>
      k < |a.tasks| && a.tasks[k].Summing? && a.tasks[k].p >= End(|a.vals|, a.nthreads, k)
    case Count(k) => k < |a.tasks| && a.tasks[k].Written?
    case Await => a.main.Awaiting? && 0 !in a.latch.sleeping
    case Spurious => 0 in a.latch.sleeping
    case AddTotal => a.main.Adding?
  }

  predicate WellFormed(a: Adder) {
    a.nthreads > 0 && |a.tasks| == |a.totals| == a.nthreads
  }

  function Next(a: Adder, e: Event): (b: Adder)
    requires WellFormed(a) && Enabled(a, e)
    ensures WellFormed(b) && b.vals == a.vals && b.nthreads == a.nthreads
  {
    match e
    case Submit =>
      if a.main.n < a.nthreads then
        a.(main := Submitting(a.main.n + 1),
           tasks := a.tasks[a.main.n := Summing(Begin(|a.vals|, a.nthreads, a.main.n), 0)])
      else a.(main := Awaiting)
    case Access(k) =>
      var t := a.tasks[k];
      a.(tasks := a.tasks[k := Summing(t.p + 1, t.acc + a.vals[t.p])])
    case Write(k) => a.(totals := a.totals[k := a.tasks[k].acc], tasks := a.tasks[k := Written])
    case Count(k) => a.(latch := AfterCountDown(a.latch), tasks := a.tasks[k := Counted])
    case Await =>
      a.(latch := AfterAwaitTest(a.latch, 0), main := if a.latch.counter > 0 then Awaiting else Adding(0, 0))
    case Spurious => a.(latch := Wake(a.latch, 0))
    case AddTotal =>
      if a.main.i < a.nthreads then a.(main := Adding(a.main.i + 1, a.main.total + a.totals[a.main.i]))
      else a.(main := Returned(a.main.total))
  }

  ghost predicate Shape(a: Adder) {
    && WellFormed(a)
    && (a.main.Submitting? ==> a.main.n <= a.nthreads)
    && (a.main.Submitting? ==> forall k :: a.main.n <= k < a.nthreads ==> a.tasks[k].Unsubmitted?)
  }

  ghost function CountedTasks(ts: seq<Task>): set<nat> {
    set k: nat | k < |ts| && ts[k].Counted?
  }

  /** A task part way has the sum of what it has passed; a written total is its slice's sum. */
  ghost predicate TaskInv(a: Adder, k: nat)
    requires Shape(a) && k < a.nthreads
  {
    match a.tasks[k]
    case Unsubmitted => a.main.Submitting? && a.main.n <= k
    case Summing(p, acc) =>
      Begin(|a.vals|, a.nthreads, k) <= p &&
      (p <= End(|a.vals|, a.nthreads, k) || p == Begin(|a.vals|, a.nthreads, k)) &&
      (if p <= |a.vals| then acc == SumRange(a.vals, Begin(|a.vals|, a.nthreads, k), p) else acc == 0)
    case Written => a.totals[k] == SliceSum(a.vals, a.nthreads, k)
    case Counted => a.totals[k] == SliceSum(a.vals, a.nthreads, k)
  }

  ghost predicate LatchInv(a: Adder)
  {
    && a.latch.counter == a.nthreads - |CountedTasks(a.tasks)|
    && (a.latch.counter <= 0 ==> a.latch.sleeping == {})
    && a.latch.sleeping <= {0} && (a.latch.sleeping != {} ==> a.main.Awaiting?)
  }

  ghost predicate MainInv(a: Adder)
    requires Shape(a)
  {
    match a.main
    case Adding(i, total) =>
      i <= a.nthreads && total == SumRange(a.vals, 0, Covered(|a.vals|, a.nthreads, i)) &&
      forall k :: 0 <= k < a.nthreads ==> a.tasks[k].Counted?
    case Returned(result) => result == SumRange(a.vals, 0, |a.vals|)
    case _ => true
  }

  ghost predicate Inv(a: Adder) {
    Shape(a) && LatchInv(a) && MainInv(a) && forall k :: 0 <= k < a.nthreads ==> TaskInv(a, k)
  }

  lemma {:induction false} AllCounted(ts: seq<Task>)
    ensures |CountedTasks(ts)| <= |ts|
    ensures |CountedTasks(ts)| == |ts| <==> forall k :: 0 <= k < |ts| ==> ts[k].Counted?
  {
    if ts != [] {
      var n := |ts| - 1;
      AllCounted(ts[..n]);
      if ts[n].Counted? {
        assert CountedTasks(ts) == CountedTasks(ts[..n]) + {n};
      } else {
        assert CountedTasks(ts) == CountedTasks(ts[..n]);
      }
      assert forall k :: 0 <= k < n ==> ts[k] == ts[..n][k];
    }
  }

  lemma UpdateCounted(ts: seq<Task>, k: nat, t: Task)
    requires k < |ts| && !ts[k].Counted?
    ensures CountedTasks(ts[k := t]) == CountedTasks(ts) + if t.Counted? then {k} else {}
    ensures |CountedTasks(ts[k := t])| == |CountedTasks(ts)| + if t.Counted? then 1 else 0
  {
  }

  lemma CountKeepsInv(a: Adder, k: nat)
    requires Inv(a) && Enabled(a, Count(k))
    ensures Inv(Next(a, Count(k)))
  {
    var b := Next(a, Count(k));
    UpdateCounted(a.tasks, k, Counted);
    AllCounted(a.tasks);
    forall j | 0 <= j < b.nthreads ensures TaskInv(b, j) {
      assert TaskInv(a, j);
    }
  }

  lemma AccessKeepsInv(a: Adder, k: nat)
    requires Inv(a) && Enabled(a, Access(k))
    ensures Inv(Next(a, Access(k)))
  {
    var b := Next(a, Access(k));
    UpdateCounted(a.tasks, k, b.tasks[k]);
    forall j | 0 <= j < b.nthreads ensures TaskInv(b, j) {
      assert TaskInv(a, j);
    }
  }

  lemma WriteKeepsInv(a: Adder, k: nat)
    requires Inv(a) && Enabled(a, Write(k))
    ensures Inv(Next(a, Write(k)))
  {
    var b := Next(a, Write(k));
    UpdateCounted(a.tasks, k, Written);
    forall j | 0 <= j < b.nthreads ensures TaskInv(b, j) {
      assert TaskInv(a, j);
    }
  }

  lemma MainKeepsInv(a: Adder, e: Event)
    requires Inv(a) && Enabled(a, e) && (e.Submit? || e.Await? || e.Spurious? || e.AddTotal?)
    ensures Inv(Next(a, e))
  {
    var b := Next(a, e);
    if e.Submit? && a.main.n < a.nthreads {
      UpdateCounted(a.tasks, a.main.n, b.tasks[a.main.n]);
    }
    if e.Await? {
      AllCounted(a.tasks);
      assert Begin(|a.vals|, a.nthreads, 0) == 0;
    }
    if e.AddTotal? {
      RegionCovers(|a.vals|, a.nthreads);
      AddSlice(a.vals, a.nthreads, a.main.i);
      if a.main.i < a.nthreads {
        assert TaskInv(a, a.main.i);
      }
    }
    forall j | 0 <= j < b.nthreads ensures TaskInv(b, j) {
      assert TaskInv(a, j);
    }
  }

  lemma NextKeepsInv(a: Adder, e: Event)
    requires Inv(a) && Enabled(a, e)
    ensures Inv(Next(a, e))
  {
    match e
    case Access(k) => AccessKeepsInv(a, k);
    case Write(k) => WriteKeepsInv(a, k);
    case Count(k) => CountKeepsInv(a, k);
    case _ => MainKeepsInv(a, e);
  }

  ghost predicate IsRun(a: Adder, es: seq<Event>)
    requires WellFormed(a)
    decreases |es|
  {
    es == [] || (Enabled(a, es[0]) && IsRun(Next(a, es[0]), es[1..]))
  }

  ghost function Run(a: Adder, es: seq<Event>): (end: Adder)
    requires WellFormed(a) && IsRun(a, es)
    ensures WellFormed(end) && end.vals == a.vals && end.nthreads == a.nthreads
    decreases |es|
  {
    if es == [] then a else Run(Next(a, es[0]), es[1..])
  }

  lemma {:induction false} RunKeepsInv(a: Adder, es: seq<Event>)
    requires Inv(a) && IsRun(a, es)
    ensures Inv(Run(a, es))
    decreases |es|
  {
    if es != [] {
      NextKeepsInv(a, es[0]);
      RunKeepsInv(Next(a, es[0]), es[1..]);
    }
  }

  lemma StartHasInv(vals: seq<int>, nthreads: nat, garbage: seq<int>)
    requires nthreads > 0 && |garbage| == nthreads
    ensures Inv(Start(vals, nthreads, garbage))
  {
    assert CountedTasks(Start(vals, nthreads, garbage).tasks) == {};
  }

  /** Whatever the number of threads and the interleaving, `par_adder` returns what `seq_adder`
      returns, and it reads the totals only when every task has written and counted down. */
  lemma {:induction false} ParallelEqualsSequential(vals: seq<int>, nthreads: nat, garbage: seq<int>, es: seq<Event>)
    requires nthreads > 0 && |garbage| == nthreads
    requires IsRun(Start(vals, nthreads, garbage), es)
    ensures var a := Run(Start(vals, nthreads, garbage), es);
            && (a.main.Returned? ==> a.main.result == SumRange(vals, 0, |vals|))
            && (a.main.Adding? ==>
                  forall k :: 0 <= k < nthreads ==>
                    a.tasks[k].Counted? && a.totals[k] == SliceSum(vals, nthreads, k))
  {
    StartHasInv(vals, nthreads, garbage);
    RunKeepsInv(Start(vals, nthreads, garbage), es);
    var a := Run(Start(vals, nthreads, garbage), es);
    if a.main.Adding? {
      forall k | 0 <= k < nthreads ensures a.totals[k] == SliceSum(vals, nthreads, k) {
        assert TaskInv(a, k);
      }
    }
  }

  /** Until it has returned, something other than a spurious wakeup can step. */
  lemma AdderNeverStuck(a: Adder)
    requires Inv(a) && !a.main.Returned?
    ensures exists e: Event :: !e.Spurious? && Enabled(a, e)
  {
    if a.main.Submitting? {
      assert Enabled(a, Submit);
    } else if a.main.Adding? {
      assert Enabled(a, AddTotal);
    } else if 0 !in a.latch.sleeping {
      assert Enabled(a, Await);
    } else {
      AllCounted(a.tasks);
      var k :| 0 <= k < a.nthreads && !a.tasks[k].Counted?;
      assert TaskInv(a, k);
      assert Enabled(a, Access(k)) || Enabled(a, Write(k)) || Enabled(a, Count(k));
    }
  }

  /** A caller that wakes for nothing finds the latch above zero and sleeps again. */
  lemma SpuriousWakeRechecks(a: Adder)
    requires Inv(a) && 0 in a.latch.sleeping
    ensures Enabled(a, Spurious) && Enabled(Next(a, Spurious), Await)
    ensures var b := Next(Next(a, Spurious), Await);
            b.main == Awaiting && b.latch == a.latch.(notified := a.latch.notified - {0})
  {
    assert a.latch.notified + {0} - {0} == a.latch.notified - {0};
  }

  // ---------------------------------------------------------------- how soon it returns

  function Clipped(n: int): nat { if n < 0 then 0 else n }

  /** Steps left in a task: its accesses, its write, and two for its count-down, of which one pays
      for waking the thread that awaits. */
  function TaskWork(nvals: nat, nthreads: nat, k: nat, t: Task): nat
    requires nthreads > 0
  {
    match t
    case Unsubmitted => Clipped(End(nvals, nthreads, k) - Begin(nvals, nthreads, k)) + 3
    case Summing(p, _) => Clipped(End(nvals, nthreads, k) - p) + 3
    case Written => 2
    case Counted => 0
  }

  function TasksWork(nvals: nat, nthreads: nat, ts: seq<Task>, n: nat): nat
    requires nthreads > 0 && n <= |ts|
  {
    if n == 0 then 0 else TasksWork(nvals, nthreads, ts, n - 1) + TaskWork(nvals, nthreads, n - 1, ts[n - 1])
  }

  /** Steps left to the thread that called `par_adder`. */
  function MainWork(a: Adder): int {
    match a.main
    case Submitting(n) => (a.nthreads - n) + a.nthreads + 3
    case Awaiting => a.nthreads + if 0 in a.latch.sleeping then 1 else 2
    case Adding(i, _) => a.nthreads - i + 1
    case Returned(_) => 0
  }

  function Work(a: Adder): int
    requires WellFormed(a)
  {
    MainWork(a) + TasksWork(|a.vals|, a.nthreads, a.tasks, a.nthreads)
  }

  lemma {:induction false} TaskWorkMoves(nvals: nat, nthreads: nat, ts: seq<Task>, k: nat, t: Task, n: nat)
    requires nthreads > 0 && k < |ts| && n <= |ts|
    ensures TasksWork(nvals, nthreads, ts[k := t], n) ==
            TasksWork(nvals, nthreads, ts, n) +
            if k < n then TaskWork(nvals, nthreads, k, t) - TaskWork(nvals, nthreads, k, ts[k]) else 0
  {
    if n > 0 {
      TaskWorkMoves(nvals, nthreads, ts, k, t, n - 1);
    }
  }

  /** Every step but a spurious wakeup uses up work, and a spurious wakeup adds one. */
  lemma StepUsesWork(a: Adder, e: Event)
    requires Inv(a) && Enabled(a, e)
    ensures Work(Next(a, e)) <= Work(a) + if e.Spurious? then 1 else -1
  {
    var b := Next(a, e);
    match e
    case Submit =>
      if a.main.n < a.nthreads {
        TaskWorkMoves(|a.vals|, a.nthreads, a.tasks, a.main.n, b.tasks[a.main.n], a.nthreads);
      }
    case Access(k) => TaskWorkMoves(|a.vals|, a.nthreads, a.tasks, k, b.tasks[k], a.nthreads);
    case Write(k) => TaskWorkMoves(|a.vals|, a.nthreads, a.tasks, k, b.tasks[k], a.nthreads);
    case Count(k) => TaskWorkMoves(|a.vals|, a.nthreads, a.tasks, k, b.tasks[k], a.nthreads);
    case _ =>
  }

  function Wakeups(es: seq<Event>): nat {
    if es == [] then 0 else (if es[0].Spurious? then 1 else 0) + Wakeups(es[1..])
  }

  lemma {:induction false} RunUsesWork(a: Adder, es: seq<Event>)
    requires Inv(a) && IsRun(a, es)
    ensures 0 <= Work(Run(a, es)) <= Work(a) + 2 * Wakeups(es) - |es|
    decreases |es|
  {
    if es != [] {
      NextKeepsInv(a, es[0]);
      StepUsesWork(a, es[0]);
      RunUsesWork(Next(a, es[0]), es[1..]);
    }
  }

  lemma {:induction false} StartWork(nvals: nat, nthreads: nat, ts: seq<Task>, n: nat)
    requires nthreads > 0 && n <= |ts| && forall k :: 0 <= k < |ts| ==> ts[k].Unsubmitted?
    ensures TasksWork(nvals, nthreads, ts, n) == Covered(nvals, nthreads, n) + 3 * n
  {
    if n > 0 {
      StartWork(nvals, nthreads, ts, n - 1);
      BeginNext(nvals, nthreads, n - 1);
    }
  }

  lemma StartWorks(vals: seq<int>, nthreads: nat, garbage: seq<int>)
    requires nthreads > 0 && |garbage| == nthreads
    ensures Work(Start(vals, nthreads, garbage)) == |vals| + 5 * nthreads + 3
  {
    RegionCovers(|vals|, nthreads);
    StartWork(|vals|, nthreads, Start(vals, nthreads, garbage).tasks, nthreads);
  }

  /** `par_adder` returns: a run has at most |vals| + 5 nthreads + 3 steps and two more per spurious
      wakeup, and a run that cannot go on without one has returned the sequential sum. */
  lemma {:induction false} AdderReturns(vals: seq<int>, nthreads: nat, garbage: seq<int>, es: seq<Event>)
    requires nthreads > 0 && |garbage| == nthreads
    requires IsRun(Start(vals, nthreads, garbage), es)
    ensures |es| <= |vals| + 5 * nthreads + 3 + 2 * Wakeups(es)
    ensures var end := Run(Start(vals, nthreads, garbage), es);
            (forall e: Event :: Enabled(end, e) ==> e.Spurious?) ==>
              end.main == Returned(SumRange(vals, 0, |vals|))
  {
    var a := Start(vals, nthreads, garbage);
    StartHasInv(vals, nthreads, garbage);
    StartWorks(vals, nthreads, garbage);
    RunUsesWork(a, es);
    RunKeepsInv(a, es);
    ParallelEqualsSequential(vals, nthreads, garbage, es);
    if !Run(a, es).main.Returned? {
      AdderNeverStuck(Run(a, es));
    }
  }

  // ---------------------------------------------------------------- the code

  class CountDownLatch {
    var counter: int
    var sleeping: set<nat>
    var notified: set<nat>

    ghost function View(): Latch reads this { Latch(counter, sleeping, notified) }

    constructor (initial: int)
      ensures View() == Latch(initial, {}, {})
    {
      counter, sleeping, notified := initial, {}, {};
    }

    method CountDown()
      modifies this
      ensures View() == AfterCountDown(old(View()))
      ensures counter == old(counter) - if old(counter) > 0 then 1 else 0
      ensures if old(counter) == 1 then sleeping == {} && notified == old(notified) + old(sleeping)
              else sleeping == old(sleeping) && notified == old(notified)
    {
      if counter > 0 {
        counter := counter - 1;
        if counter == 0 {
          sleeping, notified := {}, notified + sleeping;
        }
      }
    }

    /** One run of the loop test: whether the caller may pass. */
    method AwaitTest(self: nat) returns (passed: bool)
      modifies this
      ensures View() == AfterAwaitTest(old(View()), self) && passed == (old(counter) <= 0)
      ensures sleeping == (if passed then old(sleeping) else old(sleeping) + {self}) && counter == old(counter)
      ensures notified == old(notified) - {self}
    {
      notified := notified - {self};
      passed := counter <= 0;
      if !passed {
        sleeping := sleeping + {self};
      }
    }
  }

  method SeqAdder(vals: array<int>, nvals: nat) returns (total: int)
    requires nvals <= vals.Length
    ensures total == SumRange(vals[..], 0, nvals)
  {
    total := 0;
    for i := 0 to nvals
      invariant total == SumRange(vals[..], 0, i)
    {
      total := total + vals[i];
    }
  }

  class SumTask {
    const cdl: CountDownLatch
    var begin: nat
    var end: nat
    var total: int

    constructor (cdl: CountDownLatch, begin: nat, end: nat)
      ensures this.cdl == cdl && this.begin == begin && this.end == end
    {
      this.cdl, this.begin, this.end := cdl, begin, end;
    }

    method ParFunc(vals: array<int>)
      requires end <= vals.Length
      modifies this`total, cdl
      ensures total == SumRange(vals[..], begin, end)
      ensures cdl.View() == AfterCountDown(old(cdl.View()))
    {
      var sum := 0;
      var p := begin;
      while p < end
        invariant begin <= p && (p <= end || p == begin) && end == old(end)
        invariant sum == SumRange(vals[..], begin, if p <= end then p else end)
        decreases end - p
      {
        sum := sum + vals[p];
        p := p + 1;
      }
      total := sum;
      cdl.CountDown();
    }
  }

  ghost predicate Sliced(tasks: seq<SumTask>, cdl: CountDownLatch, nvals: nat, nthreads: nat)
    requires nthreads > 0
    reads tasks
  {
    && |tasks| == nthreads
    && (forall j, k :: 0 <= j < k < nthreads ==> tasks[j] != tasks[k])
    && (forall k :: 0 <= k < nthreads ==>
          tasks[k].cdl == cdl &&
          tasks[k].begin == Begin(nvals, nthreads, k) && tasks[k].end == End(nvals, nthreads, k))
  }

  /** Together the tasks sum the whole array, each no more than its fair share. */
  ghost predicate Shared(tasks: seq<SumTask>, nvals: nat, nthreads: nat)
    reads tasks
  {
    && |tasks| == nthreads > 0 && tasks[0].begin == 0 && tasks[nthreads - 1].end == nvals
    && (forall k :: 0 <= k < nthreads ==> IsFair(tasks[k].begin, tasks[k].end, nvals, nthreads))
    && (forall k :: 0 < k < nthreads ==>
          Meets(tasks[k - 1].begin, tasks[k - 1].end, tasks[k].begin, tasks[k].end, nvals, tasks[0].end))
  }

  lemma SlicedIsShared(tasks: seq<SumTask>, cdl: CountDownLatch, nvals: nat, nthreads: nat)
    requires nthreads > 0 && Sliced(tasks, cdl, nvals, nthreads)
    ensures Shared(tasks, nvals, nthreads)
  {
    SlicesAreFair(nvals, nthreads, 0);
    forall k | 0 <= k < nthreads ensures IsFair(tasks[k].begin, tasks[k].end, nvals, nthreads) {
      SlicesAreFair(nvals, nthreads, k);
    }
    forall k | 0 < k < nthreads
      ensures Meets(tasks[k - 1].begin, tasks[k - 1].end, tasks[k].begin, tasks[k].end, nvals, tasks[0].end)
    {
      SlicesAreFair(nvals, nthreads, k - 1);
    }
  }

  /** Task number n. */
  method NewTask(cdl: CountDownLatch, nvals: nat, nthreads: nat, n: nat, regionSize: nat) returns (task: SumTask)
    requires nthreads > 0 && regionSize == Region(nvals, nthreads)
    ensures fresh(task) && task.cdl == cdl
    ensures task.begin == Begin(nvals, nthreads, n) && task.end == End(nvals, nthreads, n)
  {
    var begin := n * regionSize;
    task := new SumTask(cdl, begin, if begin + regionSize > nvals then nvals else begin + regionSize);
  }

  method MakeTasks(cdl: CountDownLatch, nvals: nat, nthreads: nat) returns (tasks: seq<SumTask>)
    requires nthreads > 0
    ensures Sliced(tasks, cdl, nvals, nthreads) && fresh(tasks)
  {
    var regionSize := (nvals + (nthreads - 1)) / nthreads;
    tasks := [];
    for n := 0 to nthreads
      invariant |tasks| == n && fresh(tasks)
      invariant forall j, k :: 0 <= j < k < n ==> tasks[j] != tasks[k]
      invariant forall k :: 0 <= k < n ==>
                  tasks[k].cdl == cdl &&
                  tasks[k].begin == Begin(nvals, nthreads, k) && tasks[k].end == End(nvals, nthreads, k)
    {
      var task := NewTask(cdl, nvals, nthreads, n, regionSize);
      tasks := tasks + [task];
    }
  }

  method Slice(cdl: CountDownLatch, nvals: nat, nthreads: nat) returns (tasks: seq<SumTask>)
    requires nthreads > 0
    ensures Sliced(tasks, cdl, nvals, nthreads) && fresh(tasks)
    ensures Shared(tasks, nvals, nthreads)
  {
    tasks := MakeTasks(cdl, nvals, nthreads);
    SlicedIsShared(tasks, cdl, nvals, nthreads);
  }

  /** Each task once. */
  ghost predicate IsOrder(order: seq<nat>, nthreads: nat) {
    && |order| == nthreads
    && (forall i :: 0 <= i < |order| ==> order[i] < nthreads)
    && (forall k: nat :: k < nthreads ==> k in order)
    && (forall i, j :: 0 <= i < j < |order| ==> order[i] != order[j])
  }

  lemma {:induction false} SumRangePrefix(v: seq<int>, n: nat, lo: nat, hi: nat)
    requires hi <= n <= |v|
    ensures SumRange(v[..n], lo, hi) == SumRange(v, lo, hi)
    decreases hi
  {
    if lo < hi {
      SumRangePrefix(v, n, lo, hi - 1);
    }
  }

  method RunTasks(tasks: seq<SumTask>, cdl: CountDownLatch, vals: array<int>, nvals: nat, nthreads: nat,
                  order: seq<nat>)
    requires nthreads > 0 && nvals <= vals.Length && cdl.counter == nthreads
    requires Sliced(tasks, cdl, nvals, nthreads) && IsOrder(order, nthreads)
    modifies tasks, cdl
    ensures Sliced(tasks, cdl, nvals, nthreads) && cdl.counter == 0
    ensures forall k :: 0 <= k < nthreads ==> tasks[k].total == SliceSum(vals[..nvals], nthreads, k)
  {
    for i := 0 to |order|
      invariant Sliced(tasks, cdl, nvals, nthreads) && cdl.counter == nthreads - i
      invariant forall j :: 0 <= j < i ==> tasks[order[j]].total == SliceSum(vals[..nvals], nthreads, order[j])
    {
      tasks[order[i]].ParFunc(vals);
      assert vals[..nvals] == vals[..][..nvals];
      SumRangePrefix(vals[..], nvals, tasks[order[i]].begin, tasks[order[i]].end);
    }
    forall k: nat | k < nthreads ensures tasks[k].total == SliceSum(vals[..nvals], nthreads, k) {
      assert k in order;
    }
  }

  ghost function Totals(tasks: seq<SumTask>): seq<int> reads tasks {
    seq(|tasks|, k requires 0 <= k < |tasks| reads tasks => tasks[k].total)
  }

  method Combine(tasks: seq<SumTask>) returns (total: int)
    ensures total == SumRange(Totals(tasks), 0, |tasks|)
  {
    total := 0;
    for i := 0 to |tasks|
      invariant total == SumRange(Totals(tasks), 0, i)
    {
      total := total + tasks[i].total;
    }
  }

  /** `par_adder`, with the pool running the tasks one after another in an arbitrary `order` before
      the latch is awaited. */
  method ParAdder(vals: array<int>, nvals: nat, nthreads: nat, order: seq<nat>) returns (total: int)
    requires nthreads > 0 && nvals <= vals.Length && IsOrder(order, nthreads)
    ensures total == SumRange(vals[..], 0, nvals)
  {
    var cdl := new CountDownLatch(nthreads);
    var tasks := Slice(cdl, nvals, nthreads);
    RunTasks(tasks, cdl, vals, nvals, nthreads, order);
    var passed := cdl.AwaitTest(0);
    assert passed;
    total := Combine(tasks);
    SliceSumsAddUp(vals[..nvals], nthreads, Totals(tasks), nthreads);
    assert vals[..nvals] == vals[..][..nvals];
    SumRangePrefix(vals[..], nvals, 0, nvals);
  }
}
