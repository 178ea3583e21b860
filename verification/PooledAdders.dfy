/** The parallel adder on its thread pool (18-thread-pool/adder.c on thread_pool.c): a slice is summed
    only by a worker that has taken it from the pool's queue. Every step is a step of `Adders`, a
    step of `ThreadPools`, or both; task k is submitted under ticket k. */
module PooledAdders {
  import opened Commons
  import A = Adders
  import P = ThreadPools
  import Q = BlockingQueues

  datatype Sum = Sum(a: A.Adder, p: P.Pool)

  datatype Event =
    | SubmitTest                // the two halves of `thread_pool_submit`
    | SubmitPut(woken: set<nat>)
    | Caller(e: A.Event)        // the rest of `par_adder`
    | Task(e: A.Event)          // a worker inside `par_func`
    | WorkerGet(w: nat)
    | WorkerWakes(w: nat)       // spuriously
    | Finish(w: nat)            // `par_func` returns

  function Start(vals: seq<int>, nthreads: nat, garbage: seq<int>, workers: nat): Sum {
    Sum(A.Start(vals, nthreads, garbage), P.Start(workers))
  }

  /** The caller is in its submit loop, at task n. */
  predicate Submits(c: Sum, n: nat) {
    c.a.main == A.Submitting(n) && n < c.a.nthreads
  }

  predicate IsTask(e: A.Event) { e.Access? || e.Write? || e.Count? }

  predicate IsRunning(c: Sum, k: nat) {
    k in c.p.status && c.p.status[k].Running?
  }

  predicate Enabled(c: Sum, e: Event)
    requires c.a.nthreads > 0
  {
    match e
    case SubmitTest => c.a.main.Submitting? && Submits(c, c.a.main.n) && c.a.main.n !in c.p.status
    case SubmitPut(woken) =>
      c.a.main.Submitting? && Submits(c, c.a.main.n) && P.Enabled(c.p, P.SubmitPut(c.a.main.n, woken))
    case Caller(e) => A.Enabled(c.a, e) && !IsTask(e) && (e.Submit? ==> c.a.main.n >= c.a.nthreads)
    case Task(e) => IsTask(e) && A.Enabled(c.a, e) && IsRunning(c, e.k)
    case WorkerGet(w) => P.Enabled(c.p, P.WorkerGet(w))
    case WorkerWakes(w) => P.Enabled(c.p, P.WorkerWakes(w))
    case Finish(w) =>
      P.Enabled(c.p, P.Finish(w)) && c.p.busy[w] < |c.a.tasks| && c.a.tasks[c.p.busy[w]].Counted?
  }

  predicate WellFormed(c: Sum) { A.WellFormed(c.a) }

  function Next(c: Sum, e: Event): (n: Sum)
    requires WellFormed(c) && Enabled(c, e)
    ensures WellFormed(n)
  {
    match e
    case SubmitTest => c.(p := P.Next(c.p, P.SubmitTest(c.a.main.n)))
    case SubmitPut(woken) => Sum(A.Next(c.a, A.Submit), P.Next(c.p, P.SubmitPut(c.a.main.n, woken)))
    case Caller(e) => c.(a := A.Next(c.a, e))
    case Task(e) => c.(a := A.Next(c.a, e))
    case WorkerGet(w) => c.(p := P.Next(c.p, P.WorkerGet(w)))
    case WorkerWakes(w) => c.(p := P.Next(c.p, P.WorkerWakes(w)))
    case Finish(w) => c.(p := P.Next(c.p, P.Finish(w)))
  }

  /** The pool has exactly the submitted tasks, and has finished only tasks that have counted down. */
  ghost predicate Linked(a: A.Adder, p: P.Pool)
    requires A.WellFormed(a)
  {
    && !p.stopped
    && (forall t :: t in p.status ==>
          t < a.nthreads && (p.status[t] == P.InFlight <==> a.tasks[t].Unsubmitted?) &&
          (p.status[t] == P.Finished ==> a.tasks[t].Counted?) &&
          (p.status[t] == P.InFlight ==> a.main == A.Submitting(t)))
    && (forall k: nat :: k < a.nthreads && !a.tasks[k].Unsubmitted? ==> k in p.status)
  }

  ghost predicate Inv(c: Sum) {
    A.Inv(c.a) && P.PoolInv(c.p) && Linked(c.a, c.p)
  }

  // ---------------------------------------------------------------- every step

  lemma TakeKeepsLink(a: A.Adder, p: P.Pool, w: nat)
    requires A.WellFormed(a) && Linked(a, p) && P.QueuedOnce(p.m.items, p.status)
    ensures Linked(a, P.Take(p, w))
  {
    if p.m.items != [] && p.m.items[0].Act? {
      P.TakenTicket(p.m.items, p.status, w);
    }
  }

  lemma FinishKeepsLink(a: A.Adder, p: P.Pool, w: nat)
    requires A.WellFormed(a) && Linked(a, p) && P.RunByOne(p.busy, p.status)
    requires w in p.busy && p.busy[w] < a.nthreads && a.tasks[p.busy[w]].Counted?
    ensures Linked(a, P.Complete(p, w))
  {
  }

  lemma TestKeepsLink(c: Sum)
    requires A.Shape(c.a) && Linked(c.a, c.p) && Enabled(c, SubmitTest)
    ensures Linked(c.a, Next(c, SubmitTest).p)
  {
  }

  /** `b` is `a` with no task submitted, none taken back from its end, and the submit loop untouched. */
  ghost predicate SameSubmits(a: A.Adder, b: A.Adder)
    requires A.WellFormed(a) && A.WellFormed(b)
  {
    && b.nthreads == a.nthreads
    && (forall k: nat :: k < a.nthreads ==>
          (b.tasks[k].Unsubmitted? <==> a.tasks[k].Unsubmitted?) && (a.tasks[k].Counted? ==> b.tasks[k].Counted?))
    && (a.main.Submitting? && a.main.n < a.nthreads ==> b.main == a.main)
  }

  lemma LinkKept(a: A.Adder, b: A.Adder, p: P.Pool)
    requires A.WellFormed(a) && A.WellFormed(b) && Linked(a, p) && SameSubmits(a, b)
    ensures Linked(b, p)
  {
  }

  lemma TaskSubmitsNone(a: A.Adder, e: A.Event)
    requires A.WellFormed(a) && A.Enabled(a, e) && IsTask(e)
    ensures SameSubmits(a, A.Next(a, e))
  {
  }

  lemma CallerSubmitsNone(a: A.Adder, e: A.Event)
    requires A.Inv(a) && A.Enabled(a, e) && !IsTask(e) && (e.Submit? ==> a.main.n >= a.nthreads)
    ensures SameSubmits(a, A.Next(a, e))
  {
  }

  lemma PutKeepsLink(a: A.Adder, p: P.Pool, n: nat, woken: set<nat>)
    requires A.Shape(a) && Linked(a, p) && a.main == A.Submitting(n) && n < a.nthreads
    requires n in p.status && p.status[n] == P.InFlight
    ensures Linked(A.Next(a, A.Submit), P.Submit(p, n, woken))
  {
    var b := A.Next(a, A.Submit);
    assert forall k: nat :: k < a.nthreads && k != n ==> b.tasks[k] == a.tasks[k];
  }

  lemma PutKeepsInv(c: Sum, woken: set<nat>)
    requires Inv(c) && Enabled(c, SubmitPut(woken))
    ensures Inv(Next(c, SubmitPut(woken)))
  {
    var n := c.a.main.n;
    PutKeepsLink(c.a, c.p, n, woken);
    P.NextKeepsPoolInv(c.p, P.SubmitPut(n, woken));
    A.NextKeepsInv(c.a, A.Submit);
  }

  lemma AdderStepKeepsInv(c: Sum, e: A.Event)
    requires Inv(c) && A.Enabled(c.a, e) && (e.Submit? ==> c.a.main.n >= c.a.nthreads)
    ensures Inv(c.(a := A.Next(c.a, e)))
  {
    if IsTask(e) {
      TaskSubmitsNone(c.a, e);
    } else {
      CallerSubmitsNone(c.a, e);
    }
    LinkKept(c.a, A.Next(c.a, e), c.p);
    A.NextKeepsInv(c.a, e);
  }

  lemma PoolStepKeepsInv(c: Sum, e: P.Event, n: P.Pool)
    requires Inv(c) && P.Enabled(c.p, e) && n == P.Next(c.p, e) && Linked(c.a, n)
    ensures Inv(c.(p := n))
  {
    P.NextKeepsPoolInv(c.p, e);
  }

  lemma TestKeepsInv(c: Sum)
    requires Inv(c) && Enabled(c, SubmitTest)
    ensures Inv(Next(c, SubmitTest))
  {
    TestKeepsLink(c);
    PoolStepKeepsInv(c, P.SubmitTest(c.a.main.n), Next(c, SubmitTest).p);
  }

  lemma GetKeepsInv(c: Sum, w: nat)
    requires Inv(c) && Enabled(c, WorkerGet(w))
    ensures Inv(Next(c, WorkerGet(w)))
  {
    TakeKeepsLink(c.a, c.p, w);
    PoolStepKeepsInv(c, P.WorkerGet(w), Next(c, WorkerGet(w)).p);
  }

  lemma FinishKeepsInv(c: Sum, w: nat)
    requires Inv(c) && Enabled(c, Finish(w))
    ensures Inv(Next(c, Finish(w)))
  {
    FinishKeepsLink(c.a, c.p, w);
    PoolStepKeepsInv(c, P.Finish(w), Next(c, Finish(w)).p);
  }

  lemma WakeKeepsInv(c: Sum, w: nat)
    requires Inv(c) && Enabled(c, WorkerWakes(w))
    ensures Inv(Next(c, WorkerWakes(w)))
  {
    PoolStepKeepsInv(c, P.WorkerWakes(w), Next(c, WorkerWakes(w)).p);
  }

  lemma NextKeepsInv(c: Sum, e: Event)
    requires Inv(c) && Enabled(c, e)
    ensures Inv(Next(c, e))
  {
    match e
    case SubmitTest => TestKeepsInv(c);
    case SubmitPut(woken) => PutKeepsInv(c, woken);
    case Caller(e2) => AdderStepKeepsInv(c, e2);
    case Task(e2) => AdderStepKeepsInv(c, e2);
    case WorkerGet(w) => GetKeepsInv(c, w);
    case WorkerWakes(w) => WakeKeepsInv(c, w);
    case Finish(w) => FinishKeepsInv(c, w);
  }

  // ---------------------------------------------------------------- somebody can always step

  predicate IsSpurious(e: Event) {
    e.WorkerWakes? || (e.Caller? && e.e.Spurious?)
  }

  lemma NoPillNoneGone(p: P.Pool)
    requires P.QueueInv(p) && P.WorkerInv(p) && P.PillInv(p) && !p.stopped
    ensures p.done == {}
  {
    assert P.Pills(p.inserted) == 0;
    P.PillsConcat(p.taken, p.m.items);
  }

  /** A running task that has not counted down has a step. */
  lemma RunningSteps(c: Sum, k: nat)
    requires WellFormed(c) && k < c.a.nthreads && !c.a.tasks[k].Unsubmitted? && !c.a.tasks[k].Counted?
    requires IsRunning(c, k)
    ensures exists e :: !IsSpurious(e) && Enabled(c, e)
  {
    if A.Enabled(c.a, A.Access(k)) {
      assert !IsSpurious(Task(A.Access(k))) && Enabled(c, Task(A.Access(k)));
    } else if A.Enabled(c.a, A.Write(k)) {
      assert !IsSpurious(Task(A.Write(k))) && Enabled(c, Task(A.Write(k)));
    } else {
      assert !IsSpurious(Task(A.Count(k))) && Enabled(c, Task(A.Count(k)));
    }
  }

  /** While a task is queued, some worker can take one or go on with one. */
  lemma QueuedSteps(c: Sum, k: nat)
    requires Inv(c) && c.p.nthreads > 0 && k in c.p.status && c.p.status[k] == P.Queued
    ensures exists e :: !IsSpurious(e) && Enabled(c, e)
  {
    NoPillNoneGone(c.p);
    assert multiset(c.p.m.items)[P.Act(k)] == One(true);
    assert c.p.m.items != [];
    assert 0 !in c.p.done;
    P.WorkersNeverAllStuck(c.p);
    var e :| P.WorkerStep(e) && P.Enabled(c.p, e);
    if e.WorkerGet? {
      assert !IsSpurious(WorkerGet(e.worker)) && Enabled(c, WorkerGet(e.worker));
    } else {
      var t := c.p.busy[e.worker];
      if c.a.tasks[t].Counted? {
        assert !IsSpurious(Finish(e.worker)) && Enabled(c, Finish(e.worker));
      } else {
        assert c.p.status[t].Running?;
        RunningSteps(c, t);
      }
    }
  }

  lemma CallerSteps(c: Sum)
    requires A.Shape(c.a) && Linked(c.a, c.p) && c.a.main.Submitting?
    ensures exists e :: !IsSpurious(e) && Enabled(c, e)
  {
    var n := c.a.main.n;
    if n == c.a.nthreads {
      assert !IsSpurious(Caller(A.Submit)) && Enabled(c, Caller(A.Submit));
    } else if n in c.p.status {
      assert c.a.tasks[n].Unsubmitted?;
      assert Q.Signals(c.p.m, c.p.m.sleeping);
      assert !IsSpurious(SubmitPut(c.p.m.sleeping)) && Enabled(c, SubmitPut(c.p.m.sleeping));
    } else {
      assert !IsSpurious(SubmitTest) && Enabled(c, SubmitTest);
    }
  }

  /** Until `par_adder` has returned, something other than a spurious wakeup can step. */
  lemma NeverStuck(c: Sum)
    requires Inv(c) && c.p.nthreads > 0 && !c.a.main.Returned?
    ensures exists e :: !IsSpurious(e) && Enabled(c, e)
  {
    if c.a.main.Submitting? {
      CallerSteps(c);
    } else if c.a.main.Adding? {
      assert !IsSpurious(Caller(A.AddTotal)) && Enabled(c, Caller(A.AddTotal));
    } else if 0 !in c.a.latch.sleeping {
      assert !IsSpurious(Caller(A.Await)) && Enabled(c, Caller(A.Await));
    } else {
      A.AllCounted(c.a.tasks);
      var k :| 0 <= k < c.a.nthreads && !c.a.tasks[k].Counted?;
      assert A.TaskInv(c.a, k);
      if c.p.status[k].Running? {
        RunningSteps(c, k);
      } else {
        QueuedSteps(c, k);
      }
    }
  }

  // ---------------------------------------------------------------- how soon it returns

  /** Flag tests still to be made. */
  function Tests(c: Sum): int {
    match c.a.main
    case Submitting(n) => c.a.nthreads - n - One(n in c.p.status)
    case _ => 0
  }

  /** A step of the adder is worth more than the item a put adds to the pool. */
  function Work(c: Sum): int
    requires WellFormed(c)
  {
    4 * A.Work(c.a) + P.Work(c.p) + Tests(c)
  }

  /** Workers woken by the signal of a put. */
  function Signalled(e: Event): nat {
    if e.SubmitPut? then |e.woken| else 0
  }

  lemma TestsKept(c: Sum)
    requires A.Shape(c.a) && Linked(c.a, c.p) && c.a.main.Submitting?
    requires Submits(c, c.a.main.n) && c.a.main.n in c.p.status
    ensures c.a.main.n + 1 !in c.p.status
  {
  }

  lemma PutUsesWork(c: Sum, woken: set<nat>)
    requires Inv(c) && Enabled(c, SubmitPut(woken))
    ensures Work(Next(c, SubmitPut(woken))) <= Work(c) - 1 + |woken|
  {
    TestsKept(c);
    A.StepUsesWork(c.a, A.Submit);
    P.StepUsesWork(c.p, P.SubmitPut(c.a.main.n, woken));
  }

  lemma AdderStepUsesWork(c: Sum, e: A.Event)
    requires Inv(c) && A.Enabled(c.a, e) && (e.Submit? ==> c.a.main.n >= c.a.nthreads)
    ensures Work(c.(a := A.Next(c.a, e))) <= Work(c) + if e.Spurious? then 4 else -1
  {
    A.StepUsesWork(c.a, e);
  }

  lemma PoolStepUsesWork(c: Sum, e: P.Event)
    requires WellFormed(c) && P.Enabled(c.p, e) && (P.WorkerStep(e) || e.WorkerWakes?)
    ensures Work(c.(p := P.Next(c.p, e))) <= Work(c) + if e.WorkerWakes? then 1 else -1
  {
    P.StepUsesWork(c.p, e);
  }

  lemma StepUsesWork(c: Sum, e: Event)
    requires Inv(c) && Enabled(c, e)
    ensures Work(Next(c, e)) <= Work(c) - 1 + 5 * One(IsSpurious(e)) + Signalled(e)
  {
    match e
    case SubmitTest =>
    case SubmitPut(woken) => PutUsesWork(c, woken);
    case Caller(e2) => AdderStepUsesWork(c, e2);
    case Task(e2) => AdderStepUsesWork(c, e2);
    case WorkerGet(w) => PoolStepUsesWork(c, P.WorkerGet(w));
    case WorkerWakes(w) => PoolStepUsesWork(c, P.WorkerWakes(w));
    case Finish(w) => PoolStepUsesWork(c, P.Finish(w));
  }

  // ---------------------------------------------------------------- runs

  ghost predicate IsRun(c: Sum, es: seq<Event>)
    requires WellFormed(c)
    decreases |es|
  {
    es == [] || (Enabled(c, es[0]) && IsRun(Next(c, es[0]), es[1..]))
  }

  ghost function Run(c: Sum, es: seq<Event>): (end: Sum)
    requires WellFormed(c) && IsRun(c, es)
    ensures WellFormed(end)
    decreases |es|
  {
    if es == [] then c else Run(Next(c, es[0]), es[1..])
  }

  function Wakeups(es: seq<Event>): nat {
    if es == [] then 0 else One(IsSpurious(es[0])) + Wakeups(es[1..])
  }

  function Signals(es: seq<Event>): nat {
    if es == [] then 0 else Signalled(es[0]) + Signals(es[1..])
  }

  lemma WorkNonNegative(a: A.Adder, p: P.Pool)
    requires A.Inv(a) && P.PoolInv(p)
    ensures 0 <= A.Work(a) && 0 <= P.Work(p)
  {
    A.RunUsesWork(a, []);
    P.WorkNonNegative(p);
  }

  lemma TestsNonNegative(c: Sum)
    requires A.Shape(c.a) && Linked(c.a, c.p)
    ensures 0 <= Tests(c)
  {
  }

  lemma NextKeepsSize(c: Sum, e: Event)
    requires WellFormed(c) && Enabled(c, e)
    ensures Next(c, e).p.nthreads == c.p.nthreads
    ensures Next(c, e).a.vals == c.a.vals && Next(c, e).a.nthreads == c.a.nthreads
  {
  }

  lemma {:induction false} RunKeepsInv(c: Sum, es: seq<Event>)
    requires Inv(c) && IsRun(c, es)
    ensures Inv(Run(c, es)) && Run(c, es).p.nthreads == c.p.nthreads
    ensures Run(c, es).a.vals == c.a.vals && Run(c, es).a.nthreads == c.a.nthreads
    decreases |es|
  {
    if es != [] {
      NextKeepsInv(c, es[0]);
      NextKeepsSize(c, es[0]);
      RunKeepsInv(Next(c, es[0]), es[1..]);
    }
  }

  lemma {:induction false} RunUsesWork(c: Sum, es: seq<Event>)
    requires Inv(c) && IsRun(c, es)
    ensures |es| <= Work(c) + 5 * Wakeups(es) + Signals(es)
    decreases |es|
  {
    if es == [] {
      WorkNonNegative(c.a, c.p);
      TestsNonNegative(c);
    } else {
      NextKeepsInv(c, es[0]);
      StepUsesWork(c, es[0]);
      RunUsesWork(Next(c, es[0]), es[1..]);
    }
  }

  /** Tasks still to be put into the pool's queue. */
  function PutsLeft(c: Sum): int {
    if c.a.main.Submitting? then c.a.nthreads - c.a.main.n else 0
  }

  lemma SignalsFew(p: P.Pool, woken: set<nat>)
    requires P.PoolInv(p) && Q.Signals(p.m, woken)
    ensures |woken| <= p.nthreads
  {
    P.WorkersBelow(p.nthreads, woken);
  }

  lemma StepPuts(c: Sum, e: Event)
    requires A.Shape(c.a) && Enabled(c, e)
    ensures 0 <= PutsLeft(Next(c, e)) == PutsLeft(c) - One(e.SubmitPut?)
  {
  }

  lemma StepSignals(c: Sum, e: Event)
    requires Inv(c) && Enabled(c, e)
    ensures Signalled(e) <= if e.SubmitPut? then c.p.nthreads else 0
  {
    if e.SubmitPut? {
      SignalsFew(c.p, e.woken);
    }
  }

  function Puts(es: seq<Event>): nat {
    if es == [] then 0 else One(es[0].SubmitPut?) + Puts(es[1..])
  }

  /** No put of the run signals more than n workers. */
  predicate FewSignals(es: seq<Event>, n: nat) {
    es == [] || (Signalled(es[0]) <= n && FewSignals(es[1..], n))
  }

  lemma {:induction false} SignalsMultiply(es: seq<Event>, n: nat)
    requires FewSignals(es, n)
    ensures Signals(es) <= Puts(es) * n
  {
    if es != [] {
      SignalsMultiply(es[1..], n);
      assert (One(es[0].SubmitPut?) + Puts(es[1..])) * n == One(es[0].SubmitPut?) * n + Puts(es[1..]) * n;
    }
  }

  lemma {:induction false} RunSignalsFew(c: Sum, es: seq<Event>)
    requires Inv(c) && IsRun(c, es)
    ensures FewSignals(es, c.p.nthreads)
    decreases |es|
  {
    if es != [] {
      StepSignals(c, es[0]);
      NextKeepsInv(c, es[0]);
      NextKeepsSize(c, es[0]);
      RunSignalsFew(Next(c, es[0]), es[1..]);
    }
  }

  lemma {:induction false} RunPutsFew(c: Sum, es: seq<Event>)
    requires Inv(c) && IsRun(c, es)
    ensures Puts(es) <= PutsLeft(c)
    decreases |es|
  {
    if es != [] {
      StepPuts(c, es[0]);
      NextKeepsInv(c, es[0]);
      RunPutsFew(Next(c, es[0]), es[1..]);
    }
  }

  /** Each put signals at most every worker, and there is one put per task. */
  lemma SignalsBounded(c: Sum, es: seq<Event>, workers: nat, puts: nat)
    requires Inv(c) && IsRun(c, es) && PutsLeft(c) == puts && c.p.nthreads == workers
    ensures Signals(es) <= puts * workers
  {
    RunSignalsFew(c, es);
    RunPutsFew(c, es);
    SignalsMultiply(es, workers);
    MulMonotone(Puts(es), puts, workers);
  }

  lemma StartHasInv(vals: seq<int>, nthreads: nat, garbage: seq<int>, workers: nat)
    requires nthreads > 0 && |garbage| == nthreads
    ensures Inv(Start(vals, nthreads, garbage, workers))
  {
    A.StartHasInv(vals, nthreads, garbage);
    P.StartHasPoolInv(workers);
  }

  lemma StartNumbers(vals: seq<int>, nthreads: nat, garbage: seq<int>, workers: nat)
    requires nthreads > 0 && |garbage| == nthreads
    ensures PutsLeft(Start(vals, nthreads, garbage, workers)) == nthreads
    ensures Work(Start(vals, nthreads, garbage, workers)) == 4 * (|vals| + 5 * nthreads + 3) + workers + nthreads
  {
    A.StartWorks(vals, nthreads, garbage);
  }

  lemma {:induction false} PooledRunsEnd(c: Sum, es: seq<Event>, puts: nat, workers: nat)
    requires Inv(c) && IsRun(c, es) && PutsLeft(c) == puts && c.p.nthreads == workers
    ensures |es| <= Work(c) + puts * workers + 5 * Wakeups(es)
  {
    RunUsesWork(c, es);
    SignalsBounded(c, es, workers, puts);
  }

  /** `par_adder` on a pool of at least one worker that nobody stops: however caller and workers
      interleave, a run is bounded by the work and the spurious wakeups, one that cannot go on
      without a spurious wakeup has returned, and what is returned is the sequential sum. */
  lemma PooledAdderReturns(vals: seq<int>, nthreads: nat, garbage: seq<int>, workers: nat, es: seq<Event>)
    requires nthreads > 0 && workers > 0 && |garbage| == nthreads
    requires IsRun(Start(vals, nthreads, garbage, workers), es)
    ensures |es| <= 4 * |vals| + 21 * nthreads + 12 + workers + nthreads * workers + 5 * Wakeups(es)
    ensures var end := Run(Start(vals, nthreads, garbage, workers), es);
            && ((forall e :: Enabled(end, e) ==> IsSpurious(e)) ==> end.a.main.Returned?)
            && (end.a.main.Returned? ==> end.a.main.result == A.SumRange(vals, 0, |vals|))
  {
    var c := Start(vals, nthreads, garbage, workers);
    StartHasInv(vals, nthreads, garbage, workers);
    StartNumbers(vals, nthreads, garbage, workers);
    PooledRunsEnd(c, es, nthreads, workers);
    RunKeepsInv(c, es);
    if !Run(c, es).a.main.Returned? {
      NeverStuck(Run(c, es));
    }
  }
}
