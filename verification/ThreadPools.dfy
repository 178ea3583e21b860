/** The thread pool (18-thread-pool/thread_pool.c): workers loop over a blocking queue; stopping
    sets a flag and queues one pill per worker; clean-up joins every worker.

    A submit is two steps, the test of the `stopped` flag and the put, and a stop is the test, the
    setting of the flag and a put per pill, because the source does not make them atomic. Each
    submitted action is named by a ticket. */
module ThreadPools {
  import opened Commons
  import Queue = BlockingQueues

  datatype Item = Act(ticket: nat) | Pill

  /** What has become of a submit that found the pool not stopped. */
  datatype Status = InFlight | Queued | Running(worker: nat) | Finished

  datatype Pool = Pool(
    nthreads: nat,
    m: Queue.Monitor<Item>,
    stopped: bool,
    stopping: nat,            // calls of `thread_pool_stop` past the test of the flag
    stops: nat,               // history: calls that have set the flag
    pillsLeft: nat,           // pills these still have to queue
    busy: map<nat, nat>,      // worker -> ticket it is running
    done: set<nat>,           // workers that took a pill
    status: map<nat, Status>, // history: every accepted ticket
    ran: multiset<nat>,       // history: completions of each ticket
    inserted: seq<Item>,      // history: items in queue order
    taken: seq<Item>,         // history: items in the order taken
    late: seq<Item>)          // history: items put behind a pill for every worker

  datatype Event =
    | SubmitTest(ticket: nat)
    | SubmitPut(ticket: nat, woken: set<nat>)
    | StopTest
    | StopSet
    | StopPill(woken: set<nat>)
    | WorkerGet(worker: nat)
    | WorkerWakes(worker: nat)   // spuriously
    | Finish(worker: nat)

  function Start(nthreads: nat): Pool {
    Pool(nthreads, Queue.Monitor([], {}, {}), false, 0, 0, 0, map[], {}, map[], multiset{}, [], [], [])
  }

  function Pills(xs: seq<Item>): nat {
    if xs == [] then 0 else Pills(xs[..|xs| - 1]) + One(xs[|xs| - 1].Pill?)
  }

  /** Too late to be served: a pill for every worker has been queued before. */
  predicate TooLate(p: Pool) {
    Pills(p.inserted) >= p.nthreads
  }

  predicate Looping(p: Pool, w: nat) {
    w < p.nthreads && w !in p.busy && w !in p.done
  }

  predicate Enabled(p: Pool, e: Event) {
    match e
    case SubmitTest(c) => c !in p.status
    case SubmitPut(c, woken) => c in p.status && p.status[c] == InFlight && Queue.Signals(p.m, woken)
    case StopTest => true
    case StopSet => p.stopping > 0
    case StopPill(woken) => p.pillsLeft > 0 && Queue.Signals(p.m, woken)
    case WorkerGet(w) => Looping(p, w) && w !in p.m.sleeping
    case WorkerWakes(w) => w in p.m.sleeping
    case Finish(w) => w in p.busy
  }

  function Put(p: Pool, x: Item, woken: set<nat>): Pool {
    p.(m := Queue.Next(p.m, Queue.Put(x, woken)), inserted := p.inserted + [x],
       late := if TooLate(p) then p.late + [x] else p.late)
  }

  function Submit(p: Pool, c: nat, woken: set<nat>): Pool {
    Put(p, Act(c), woken).(status := p.status[c := Queued])
  }

  function Take(p: Pool, w: nat): Pool {
    var m := Queue.Next(p.m, Queue.Get(w));
    if p.m.items == [] then p.(m := m)
    else match p.m.items[0]
         case Pill => p.(m := m, done := p.done + {w}, taken := p.taken + [Pill])
         case Act(c) => p.(m := m, busy := p.busy[w := c], status := p.status[c := Running(w)],
                           taken := p.taken + [Act(c)])
  }

  function Complete(p: Pool, w: nat): Pool
    requires w in p.busy
  {
    var c := p.busy[w];
    p.(busy := p.busy - {w}, status := p.status[c := Finished], ran := p.ran + multiset{c})
  }

  function Next(p: Pool, e: Event): Pool
    requires Enabled(p, e)
  {
    match e
    case SubmitTest(c) => if p.stopped then p else p.(status := p.status[c := InFlight])
    case SubmitPut(c, woken) => Submit(p, c, woken)
    case StopTest => if p.stopped then p else p.(stopping := p.stopping + 1)
    case StopSet =>
      p.(stopped := true, stopping := p.stopping - 1, stops := p.stops + 1, pillsLeft := p.pillsLeft + p.nthreads)
    case StopPill(woken) => Put(p, Pill, woken).(pillsLeft := p.pillsLeft - 1)
    case WorkerGet(w) => Take(p, w)
    case WorkerWakes(w) => p.(m := Queue.Next(p.m, Queue.Spurious(w)))
    case Finish(w) => Complete(p, w)
  }

  /** What `thread_pool_cleanup` waits for. */
  predicate Joined(p: Pool) {
    p.stopped && p.pillsLeft == 0 && forall w | 0 <= w < p.nthreads :: w in p.done
  }

  // ---------------------------------------------------------------- items

  lemma PillsAppend(xs: seq<Item>, x: Item)
    ensures Pills(xs + [x]) == Pills(xs) + One(x.Pill?)
  {
    assert (xs + [x])[..|xs|] == xs;
  }

  lemma {:induction false} PillsConcat(a: seq<Item>, b: seq<Item>)
    ensures Pills(a + b) == Pills(a) + Pills(b)
  {
    if b == [] {
      assert a + b == a;
    } else {
      assert a + b == (a + b[..|b| - 1]) + [b[|b| - 1]];
      PillsAppend(a + b[..|b| - 1], b[|b| - 1]);
      PillsConcat(a, b[..|b| - 1]);
    }
  }

  /** `xs` is empty or ends with its last pill. */
  predicate EndsWithPill(xs: seq<Item>) {
    xs == [] || xs[|xs| - 1].Pill?
  }

  lemma CutUnique(xs: seq<Item>, a: seq<Item>, b: seq<Item>)
    requires a <= xs && b <= xs && Pills(a) == Pills(b)
    requires EndsWithPill(a) && EndsWithPill(b)
    ensures a == b
  {
    if |a| < |b| {
      CutUnique2(a, b);
    } else if |b| < |a| {
      CutUnique2(b, a);
    }
  }

  lemma CutUnique2(a: seq<Item>, b: seq<Item>)
    requires a < b && EndsWithPill(b)
    ensures Pills(a) < Pills(b)
  {
    var rest := b[|a|..];
    assert b == a + rest;
    PillsConcat(a, rest);
    assert rest[|rest| - 1].Pill?;
  }

  // ---------------------------------------------------------------- the invariant

  ghost predicate QueueInv(p: Pool) {
    && Queue.Inv(p.m)
    && p.inserted == p.taken + p.m.items
    && (forall w :: w in p.m.sleeping || w in p.m.notified ==> Looping(p, w))
  }

  ghost predicate WorkerInv(p: Pool) {
    && (forall w :: w in p.done ==> w < p.nthreads)
    && (forall w :: w in p.busy ==> w < p.nthreads && w !in p.done)
    && |p.done| == Pills(p.taken)
  }

  ghost predicate QueuedOnce(items: seq<Item>, status: map<nat, Status>) {
    forall c :: multiset(items)[Act(c)] == One(c in status && status[c] == Queued)
  }

  ghost predicate RanOnce(ran: multiset<nat>, status: map<nat, Status>) {
    forall c :: ran[c] == One(c in status && status[c] == Finished)
  }

  ghost predicate RunByOne(busy: map<nat, nat>, status: map<nat, Status>) {
    && (forall w :: w in busy ==> busy[w] in status && status[busy[w]] == Running(w))
    && (forall c :: c in status && status[c].Running? ==>
          status[c].worker in busy && busy[status[c].worker] == c)
  }

  /** A ticket is in the queue once while queued, with one worker while running, and has run once
      when finished; otherwise not at all. */
  ghost predicate OnceInv(p: Pool) {
    QueuedOnce(p.m.items, p.status) && RanOnce(p.ran, p.status) && RunByOne(p.busy, p.status)
  }

  ghost predicate PillInv(p: Pool) {
    && (p.stopped <==> p.stops > 0)
    && Pills(p.inserted) + p.pillsLeft == p.stops * p.nthreads
    && (Pills(p.taken) == p.nthreads ==> EndsWithPill(p.taken))
  }

  /** The items before the late ones end with the last pill that a worker takes. */
  ghost predicate LateFrom(inserted: seq<Item>, late: seq<Item>, n: nat) {
    && |late| <= |inserted| && inserted[|inserted| - |late|..] == late
    && (if Pills(inserted) >= n then
          var early := inserted[..|inserted| - |late|];
          EndsWithPill(early) && Pills(early) == n
        else late == [])
  }

  ghost predicate LateInv(p: Pool) {
    LateFrom(p.inserted, p.late, p.nthreads)
  }

  ghost predicate PoolInv(p: Pool) {
    QueueInv(p) && WorkerInv(p) && OnceInv(p) && PillInv(p) && LateInv(p)
  }

  lemma {:induction false} WorkersBelow(n: nat, ws: set<nat>)
    requires forall w :: w in ws ==> w < n
    ensures |ws| <= n
    ensures |ws| == n <==> forall w | 0 <= w < n :: w in ws
  {
    if n > 0 {
      WorkersBelow(n - 1, ws - {n - 1});
      if n - 1 in ws {
        assert |ws| == |ws - {n - 1}| + 1;
        assert forall w | 0 <= w < n - 1 :: w in ws <==> w in ws - {n - 1};
      } else {
        assert ws - {n - 1} == ws;
      }
    } else {
      assert ws == {};
    }
  }

  lemma PutKeepsQueue(p: Pool, x: Item, woken: set<nat>)
    requires QueueInv(p) && Queue.Signals(p.m, woken)
    ensures QueueInv(Put(p, x, woken))
  {
    Queue.NextKeepsInv(p.m, Queue.Put(x, woken));
    assert p.inserted + [x] == p.taken + (p.m.items + [x]);
  }

  lemma SleepKeepsQueue(p: Pool, w: nat)
    requires QueueInv(p) && Looping(p, w) && w !in p.m.sleeping && p.m.items == []
    ensures QueueInv(Take(p, w))
  {
    Queue.NextKeepsInv(p.m, Queue.Get(w));
  }

  lemma TakeKeepsOrder(p: Pool, w: nat)
    requires p.inserted == p.taken + p.m.items && p.m.items != []
    ensures Take(p, w).inserted == Take(p, w).taken + Take(p, w).m.items
  {
    assert p.taken + p.m.items == (p.taken + [p.m.items[0]]) + p.m.items[1..];
  }

  lemma TakeKeepsQueue(p: Pool, w: nat)
    requires QueueInv(p) && Looping(p, w) && w !in p.m.sleeping && p.m.items != []
    ensures QueueInv(Take(p, w))
  {
    TakeKeepsOrder(p, w);
    Queue.NextKeepsInv(p.m, Queue.Get(w));
  }

  lemma NextKeepsQueue(p: Pool, e: Event)
    requires QueueInv(p) && Enabled(p, e)
    ensures QueueInv(Next(p, e))
  {
    match e
    case SubmitPut(c, woken) => PutKeepsQueue(p, Act(c), woken);
    case StopPill(woken) => PutKeepsQueue(p, Pill, woken);
    case WorkerGet(w) => if p.m.items == [] { SleepKeepsQueue(p, w); } else { TakeKeepsQueue(p, w); }
    case WorkerWakes(w) => Queue.NextKeepsInv(p.m, Queue.Spurious(w));
    case _ =>
  }

  lemma NextKeepsWorkers(p: Pool, e: Event)
    requires WorkerInv(p) && Enabled(p, e)
    ensures WorkerInv(Next(p, e))
  {
    if e.WorkerGet? && p.m.items != [] {
      PillsAppend(p.taken, p.m.items[0]);
    }
  }

  lemma SetKeepsPills(p: Pool)
    requires PillInv(p) && p.stopping > 0
    ensures PillInv(Next(p, StopSet))
  {
    assert (p.stops + 1) * p.nthreads == p.stops * p.nthreads + p.nthreads;
  }

  lemma TakeKeepsPills(p: Pool, w: nat)
    requires WorkerInv(p) && PillInv(p) && Looping(p, w)
    ensures PillInv(Take(p, w))
  {
    if p.m.items != [] {
      PillsAppend(p.taken, p.m.items[0]);
      WorkersBelow(p.nthreads, p.done);
    }
  }

  lemma SamePills(p: Pool, n: Pool)
    requires PillInv(p) && n.nthreads == p.nthreads && n.stopped == p.stopped && n.stops == p.stops
    requires n.taken == p.taken
    requires Pills(n.inserted) + n.pillsLeft == Pills(p.inserted) + p.pillsLeft
    ensures PillInv(n)
  {
  }

  lemma NextKeepsPills(p: Pool, e: Event)
    requires WorkerInv(p) && PillInv(p) && Enabled(p, e)
    ensures PillInv(Next(p, e))
  {
    match e
    case SubmitPut(c, woken) =>
      PillsAppend(p.inserted, Act(c));
      SamePills(p, Next(p, e));
    case StopPill(woken) =>
      PillsAppend(p.inserted, Pill);
      SamePills(p, Next(p, e));
    case WorkerGet(w) => TakeKeepsPills(p, w);
    case StopSet => SetKeepsPills(p);
    case _ => SamePills(p, Next(p, e));
  }

  lemma AppendsBehind(inserted: seq<Item>, late: seq<Item>, n: nat, x: Item)
    requires LateFrom(inserted, late, n) && Pills(inserted) >= n
    ensures LateFrom(inserted + [x], late + [x], n)
  {
    var cut, grown := |inserted| - |late|, inserted + [x];
    PillsAppend(inserted, x);
    assert grown[..cut] == inserted[..cut];
    assert grown[cut..] == inserted[cut..] + [x];
  }

  lemma AppendsEarly(inserted: seq<Item>, n: nat, x: Item)
    requires Pills(inserted) < n
    ensures LateFrom(inserted + [x], [], n)
  {
    var grown := inserted + [x];
    PillsAppend(inserted, x);
    assert grown[..|grown|] == grown;
  }

  lemma LateAppends(inserted: seq<Item>, late: seq<Item>, n: nat, x: Item)
    requires LateFrom(inserted, late, n)
    ensures LateFrom(inserted + [x], if Pills(inserted) >= n then late + [x] else late, n)
  {
    if Pills(inserted) >= n {
      AppendsBehind(inserted, late, n, x);
    } else {
      AppendsEarly(inserted, n, x);
    }
  }

  lemma PutKeepsLate(p: Pool, x: Item, woken: set<nat>)
    requires LateInv(p)
    ensures LateInv(Put(p, x, woken))
  {
    LateAppends(p.inserted, p.late, p.nthreads, x);
  }

  lemma NextKeepsLate(p: Pool, e: Event)
    requires LateInv(p) && Enabled(p, e)
    ensures LateInv(Next(p, e))
  {
    match e
    case SubmitPut(c, woken) =>
      PutKeepsLate(p, Act(c), woken);
      SameLate(Put(p, Act(c), woken), Next(p, e));
    case StopPill(woken) =>
      PutKeepsLate(p, Pill, woken);
      SameLate(Put(p, Pill, woken), Next(p, e));
    case _ => SameLate(p, Next(p, e));
  }

  lemma SameLate(p: Pool, n: Pool)
    requires LateInv(p)
    requires n.nthreads == p.nthreads && n.inserted == p.inserted && n.late == p.late
    ensures LateInv(n)
  {
  }

  lemma TakenTicket(items: seq<Item>, status: map<nat, Status>, w: nat)
    requires QueuedOnce(items, status) && items != []
    ensures items[0].Act? ==>
              items[0].ticket in status && status[items[0].ticket] == Queued &&
              QueuedOnce(items[1..], status[items[0].ticket := Running(w)])
    ensures items[0].Pill? ==> QueuedOnce(items[1..], status)
  {
    var x := items[0];
    assert items == [x] + items[1..];
    assert multiset(items) == multiset{x} + multiset(items[1..]);
    assert multiset(items)[x] >= 1;
  }

  lemma QueuedTicket(items: seq<Item>, status: map<nat, Status>, x: Item)
    requires QueuedOnce(items, status)
    ensures x.Pill? ==> QueuedOnce(items + [x], status)
    ensures x.Act? && (x.ticket in status ==> status[x.ticket] != Queued) ==>
              QueuedOnce(items + [x], status[x.ticket := Queued])
  {
    assert multiset(items + [x]) == multiset(items) + multiset{x};
  }

  lemma StartRunning(p: Pool, w: nat, c: nat)
    requires OnceInv(p) && w !in p.busy && c in p.status && p.status[c] == Queued
    ensures RunByOne(p.busy[w := c], p.status[c := Running(w)])
    ensures RanOnce(p.ran, p.status[c := Running(w)])
  {
  }

  lemma TakeKeepsRunByOne(p: Pool, w: nat)
    requires OnceInv(p) && Looping(p, w)
    ensures OnceInv(Take(p, w))
  {
    if p.m.items != [] {
      TakenTicket(p.m.items, p.status, w);
      if p.m.items[0].Act? {
        StartRunning(p, w, p.m.items[0].ticket);
      }
    }
  }

  lemma SubmitKeepsOnce(p: Pool, c: nat, woken: set<nat>)
    requires OnceInv(p) && c in p.status && p.status[c] == InFlight
    ensures OnceInv(Submit(p, c, woken))
  {
    QueuedTicket(p.m.items, p.status, Act(c));
  }

  lemma CompleteKeepsOnce(p: Pool, w: nat)
    requires OnceInv(p) && w in p.busy
    ensures OnceInv(Complete(p, w))
  {
  }

  lemma NextKeepsOnce(p: Pool, e: Event)
    requires OnceInv(p) && Enabled(p, e)
    ensures OnceInv(Next(p, e))
  {
    match e
    case SubmitPut(c, woken) => SubmitKeepsOnce(p, c, woken);
    case StopPill(woken) => QueuedTicket(p.m.items, p.status, Pill);
    case WorkerGet(w) => TakeKeepsRunByOne(p, w);
    case Finish(w) => CompleteKeepsOnce(p, w);
    case _ =>
  }

  lemma NextKeepsPoolInv(p: Pool, e: Event)
    requires PoolInv(p) && Enabled(p, e)
    ensures PoolInv(Next(p, e))
  {
    NextKeepsQueue(p, e);
    NextKeepsWorkers(p, e);
    NextKeepsOnce(p, e);
    NextKeepsPills(p, e);
    NextKeepsLate(p, e);
  }

  // ---------------------------------------------------------------- runs

  ghost predicate IsRun(p: Pool, es: seq<Event>)
    decreases |es|
  {
    es == [] || (Enabled(p, es[0]) && IsRun(Next(p, es[0]), es[1..]))
  }

  ghost function Run(p: Pool, es: seq<Event>): Pool
    requires IsRun(p, es)
    decreases |es|
  {
    if es == [] then p else Run(Next(p, es[0]), es[1..])
  }

  lemma {:induction false} RunKeepsPoolInv(p: Pool, es: seq<Event>)
    requires PoolInv(p) && IsRun(p, es)
    ensures PoolInv(Run(p, es))
    decreases |es|
  {
    if es != [] {
      NextKeepsPoolInv(p, es[0]);
      RunKeepsPoolInv(Next(p, es[0]), es[1..]);
    }
  }

  lemma StartHasPoolInv(n: nat)
    ensures PoolInv(Start(n))
  {
    assert Pills([]) == 0;
  }

  /** Every completion is of an accepted ticket, no ticket completes twice, and a running ticket
      has one worker and has not completed. */
  ghost predicate ExactlyOnce(p: Pool) {
    && (forall c :: p.ran[c] <= 1)
    && (forall c :: p.ran[c] == 1 ==> c in p.status)
    && (forall w :: w in p.busy ==> p.busy[w] in p.status && p.ran[p.busy[w]] == 0)
    && (forall v, w :: v in p.busy && w in p.busy && p.busy[v] == p.busy[w] ==> v == w)
  }

  lemma OnceInvMeans(p: Pool)
    requires OnceInv(p)
    ensures ExactlyOnce(p)
  {
    forall v, w | v in p.busy && w in p.busy && p.busy[v] == p.busy[w] ensures v == w {
      assert p.status[p.busy[v]] == Running(v);
    }
  }

  /** Exactly once, whatever the interleaving; and each worker that left took exactly one pill. */
  lemma {:induction false} ActionsRunOnce(n: nat, es: seq<Event>)
    requires IsRun(Start(n), es)
    ensures ExactlyOnce(Run(Start(n), es))
    ensures |Run(Start(n), es).done| == Pills(Run(Start(n), es).taken)
    ensures Run(Start(n), es).taken <= Run(Start(n), es).inserted
  {
    StartHasPoolInv(n);
    RunKeepsPoolInv(Start(n), es);
    OnceInvMeans(Run(Start(n), es));
  }

  /** Stops that have queued all their pills have queued one for every worker. */
  lemma StoppedIsTooLate(p: Pool)
    requires PillInv(p) && p.stopped && p.pillsLeft == 0
    ensures TooLate(p) && Pills(p.inserted) == p.nthreads + (p.stops - 1) * p.nthreads
  {
    assert p.stops * p.nthreads == p.nthreads + (p.stops - 1) * p.nthreads;
    MulMonotone(0, p.stops - 1, p.nthreads);
  }

  /** When all joins have returned, what is left in the queue is exactly what was put too late; among
      it are the pills of every stop but one. */
  lemma JoinedLeavesLate(p: Pool)
    requires PoolInv(p) && Joined(p)
    ensures p.busy == map[] && p.m.items == p.late && Pills(p.late) == (p.stops - 1) * p.nthreads
  {
    WorkersBelow(p.nthreads, p.done);
    StoppedIsTooLate(p);
    var early := p.inserted[..|p.inserted| - |p.late|];
    assert p.inserted == early + p.late;
    PillsConcat(early, p.late);
    CutUnique(p.inserted, p.taken, early);
    assert forall w :: w !in p.busy;
  }

  ghost predicate NoneInFlight(p: Pool) {
    forall c :: c in p.status ==> p.status[c] != InFlight
  }

  predicate OnlyPills(xs: seq<Item>) {
    forall i :: 0 <= i < |xs| ==> xs[i].Pill?
  }

  lemma {:induction false} OnlyPillsCount(xs: seq<Item>)
    requires OnlyPills(xs)
    ensures Pills(xs) == |xs|
  {
    if xs != [] {
      OnlyPillsCount(xs[..|xs| - 1]);
    }
  }

  /** Every accepted action has run, once. */
  ghost predicate AllRan(p: Pool) {
    forall c :: c in p.status ==> p.ran[c] == 1
  }

  lemma QueuedAreActs(items: seq<Item>, status: map<nat, Status>)
    requires QueuedOnce(items, status)
    ensures OnlyPills(items) <==> forall c :: c in status ==> status[c] != Queued
  {
    if OnlyPills(items) {
      forall c | c in status ensures status[c] != Queued {
        assert Act(c) !in items;
        assert multiset(items)[Act(c)] == One(status[c] == Queued);
      }
    } else {
      var i :| 0 <= i < |items| && !items[i].Pill?;
      var c := items[i].ticket;
      assert Act(c) in items;
      assert multiset(items)[Act(c)] == One(c in status && status[c] == Queued);
    }
  }

  lemma RanAreFinished(p: Pool)
    requires RanOnce(p.ran, p.status)
    ensures AllRan(p) <==> forall c :: c in p.status ==> p.status[c] == Finished
  {
    forall c | c in p.status ensures p.ran[c] == 1 <==> p.status[c] == Finished {
      assert p.ran[c] == One(p.status[c] == Finished);
    }
  }

  lemma JoinedRanExactly(p: Pool)
    requires PoolInv(p) && Joined(p)
    ensures AllRan(p) <==> OnlyPills(p.late) && NoneInFlight(p)
  {
    JoinedLeavesLate(p);
    QueuedAreActs(p.m.items, p.status);
    RanAreFinished(p);
    NobodyRuns(p);
  }

  lemma NobodyRuns(p: Pool)
    requires RunByOne(p.busy, p.status) && p.busy == map[]
    ensures forall c :: c in p.status ==> !p.status[c].Running?
  {
  }

  /** Once the joins have returned, every accepted action has run exactly when none was put behind a
      pill for every worker or is still to be put (with no workers, every put is too late); and with
      one stop nothing at all is then left in the queue. */
  lemma {:induction false} CleanupExact(n: nat, es: seq<Event>)
    requires IsRun(Start(n), es) && Joined(Run(Start(n), es))
    ensures var p := Run(Start(n), es);
            && (AllRan(p) <==> OnlyPills(p.late) && NoneInFlight(p))
            && (AllRan(p) ==> |p.m.items| == (p.stops - 1) * n)
  {
    StartHasPoolInv(n);
    RunKeepsPoolInv(Start(n), es);
    KeepsThreads(Start(n), es);
    var p := Run(Start(n), es);
    JoinedRanExactly(p);
    JoinedLeavesLate(p);
    if AllRan(p) {
      OnlyPillsCount(p.late);
    }
  }

  lemma {:induction false} KeepsThreads(p: Pool, es: seq<Event>)
    requires IsRun(p, es)
    ensures Run(p, es).nthreads == p.nthreads
    decreases |es|
  {
    if es != [] {
      KeepsThreads(Next(p, es[0]), es[1..]);
    }
  }

  /** In this run no submit is between its flag test and its put when the flag is first set. */
  ghost predicate NoOverlap(p: Pool, es: seq<Event>)
    requires IsRun(p, es)
    decreases |es|
  {
    es == [] ||
    ((es[0].StopSet? && !p.stopped ==> NoneInFlight(p)) &&
     NoOverlap(Next(p, es[0]), es[1..]))
  }

  ghost predicate ActionsFirst(xs: seq<Item>) {
    forall i, j :: 0 <= i < j < |xs| && xs[i].Pill? ==> xs[j].Pill?
  }

  ghost predicate Orderly(p: Pool) {
    && p.nthreads > 0
    && ActionsFirst(p.inserted)
    && (p.stopped ==> NoneInFlight(p))
    && (!p.stopped ==> p.pillsLeft == 0 && forall i :: 0 <= i < |p.inserted| ==> p.inserted[i].Act?)
    && OnlyPills(p.late)
  }

  lemma NextStaysOrderly(p: Pool, e: Event)
    requires PillInv(p) && Orderly(p) && Enabled(p, e) && (e.StopSet? && !p.stopped ==> NoneInFlight(p))
    ensures Orderly(Next(p, e))
  {
  }

  lemma {:induction false} NoOverlapStaysOrderly(p: Pool, es: seq<Event>)
    requires PoolInv(p) && Orderly(p) && IsRun(p, es) && NoOverlap(p, es)
    ensures Orderly(Run(p, es))
    decreases |es|
  {
    if es != [] {
      NextStaysOrderly(p, es[0]);
      NextKeepsPoolInv(p, es[0]);
      NoOverlapStaysOrderly(Next(p, es[0]), es[1..]);
    }
  }

  /** When no submit overlaps the first stop: all actions precede all pills, and once the joins
      return every accepted action has run, and the queue holds the pills of further stops only. */
  lemma {:induction false} CleanupFinishesAll(n: nat, es: seq<Event>)
    requires n > 0 && IsRun(Start(n), es) && NoOverlap(Start(n), es)
    ensures var p := Run(Start(n), es);
            ActionsFirst(p.inserted) && (Joined(p) ==> AllRan(p) && |p.m.items| == (p.stops - 1) * n)
  {
    StartHasPoolInv(n);
    NoOverlapStaysOrderly(Start(n), es);
    if Joined(Run(Start(n), es)) {
      CleanupExact(n, es);
    }
  }

  /** In this run no stop begins while another is between its test and the setting of the flag. */
  ghost predicate StopsInTurn(p: Pool, es: seq<Event>)
    requires IsRun(p, es)
    decreases |es|
  {
    es == [] || ((es[0].StopTest? ==> p.stopping == 0) && StopsInTurn(Next(p, es[0]), es[1..]))
  }

  /** At most one stop has gone or can go past the test. */
  predicate OneStop(p: Pool) {
    p.stops + p.stopping <= 1 && (p.stopped <==> p.stops > 0)
  }

  lemma {:induction false} InTurnIsOneStop(p: Pool, es: seq<Event>)
    requires OneStop(p) && IsRun(p, es) && StopsInTurn(p, es)
    ensures OneStop(Run(p, es))
    decreases |es|
  {
    if es != [] {
      assert OneStop(Next(p, es[0]));
      InTurnIsOneStop(Next(p, es[0]), es[1..]);
    }
  }

  lemma OneStopFewPills(p: Pool)
    requires PillInv(p) && OneStop(p)
    ensures Pills(p.inserted) + p.pillsLeft <= p.nthreads
  {
    MulMonotone(p.stops, 1, p.nthreads);
  }

  lemma OneStopLeavesNothing(n: nat, es: seq<Event>)
    requires n > 0 && IsRun(Start(n), es) && NoOverlap(Start(n), es)
    requires Joined(Run(Start(n), es)) && Run(Start(n), es).stops == 1
    ensures Run(Start(n), es).m.items == [] && AllRan(Run(Start(n), es))
  {
    CleanupFinishesAll(n, es);
    assert (1 - 1) * n == 0;
  }

  /** Stopping again does nothing: over a run with any number of stops, one after another (a clean-up
      stops once more), the flag is set at most once and no more than one pill per worker is queued or
      owed; and if no submit overlaps, the joins leave an empty queue and every action run. */
  lemma {:induction false} StopsInTurnStopOnce(n: nat, es: seq<Event>)
    requires IsRun(Start(n), es) && StopsInTurn(Start(n), es)
    ensures var p := Run(Start(n), es);
            && p.stops <= 1 && Pills(p.inserted) + p.pillsLeft <= n
            && (n > 0 && NoOverlap(Start(n), es) && Joined(p) ==> p.m.items == [] && AllRan(p))
  {
    StartHasPoolInv(n);
    RunKeepsPoolInv(Start(n), es);
    KeepsThreads(Start(n), es);
    InTurnIsOneStop(Start(n), es);
    OneStopFewPills(Run(Start(n), es));
    if n > 0 && NoOverlap(Start(n), es) && Joined(Run(Start(n), es)) {
      OneStopLeavesNothing(n, es);
    }
  }

  /** A pool that is stopped rejects every submit, and stopping it again changes nothing. */
  lemma StoppedStaysAsIs(p: Pool, c: nat)
    requires p.stopped && c !in p.status
    ensures Enabled(p, SubmitTest(c)) && Next(p, SubmitTest(c)) == p
    ensures Enabled(p, StopTest) && Next(p, StopTest) == p
  {
  }

  /** A worker that wakes for nothing looks at the queue again and goes back to sleep. */
  lemma SpuriousWakeRechecks(p: Pool, w: nat)
    requires QueueInv(p) && w in p.m.sleeping && p.m.items == []
    ensures Enabled(p, WorkerWakes(w)) && Enabled(Next(p, WorkerWakes(w)), WorkerGet(w))
    ensures Next(Next(p, WorkerWakes(w)), WorkerGet(w)) == p
  {
    assert p.m.notified + {w} - {w} == p.m.notified;
    assert p.m.sleeping - {w} + {w} == p.m.sleeping;
  }

  lemma RunFrom(p: Pool, e: Event, n: Pool, es: seq<Event>) returns (longer: seq<Event>)
    requires Enabled(p, e) && n == Next(p, e) && IsRun(n, es)
    ensures IsRun(p, longer) && Run(p, longer) == Run(n, es)
  {
    longer := [e] + es;
    assert longer[1..] == es;
  }

  /** A pool of one worker that has passed the flag to a submit and has then been stopped. */
  function Racing(): Pool {
    Start(1).(status := map[7 := InFlight], stopped := true, stops := 1, pillsLeft := 1)
  }

  /** The same with its pill queued, and with that pill taken. */
  function PillQueued(): Pool {
    Racing().(pillsLeft := 0, m := Queue.Monitor([Pill], {}, {}), inserted := [Pill])
  }

  function WorkerGone(): Pool {
    PillQueued().(m := Queue.Monitor([], {}, {}), done := {0}, taken := [Pill])
  }

  /** ... and with the submit's put, behind the pill. */
  function Lost(): Pool {
    WorkerGone().(m := Queue.Monitor([Act(7)], {}, {}), status := map[7 := Queued],
                  inserted := [Pill, Act(7)], late := [Act(7)])
  }

  lemma PillGoes()
    ensures Enabled(Racing(), StopPill({})) && Next(Racing(), StopPill({})) == PillQueued()
  {
    assert Pills([]) == 0;
  }

  lemma WorkerGoes()
    ensures Enabled(PillQueued(), WorkerGet(0)) && Next(PillQueued(), WorkerGet(0)) == WorkerGone()
  {
  }

  lemma LosingPut()
    ensures Enabled(WorkerGone(), SubmitPut(7, {})) && Next(WorkerGone(), SubmitPut(7, {})) == Lost()
  {
    PillsAppend([], Pill);
    assert [] + [Pill] == [Pill];
  }

  lemma RacingLoses() returns (es: seq<Event>)
    ensures IsRun(Racing(), es) && Run(Racing(), es) == Lost()
  {
    LosingPut();
    es := RunFrom(WorkerGone(), SubmitPut(7, {}), Lost(), []);
    WorkerGoes();
    es := RunFrom(PillQueued(), WorkerGet(0), WorkerGone(), es);
    PillGoes();
    es := RunFrom(Racing(), StopPill({}), PillQueued(), es);
  }

  lemma LostMeansLost()
    ensures Joined(Lost()) && !AllRan(Lost())
  {
    assert 7 in Lost().status && Lost().ran[7] == 0;
  }

  /** The race: a submit that overlaps stop is accepted and never run. */
  lemma OverlapLosesAction() returns (es: seq<Event>)
    ensures IsRun(Start(1), es) && Joined(Run(Start(1), es)) && !AllRan(Run(Start(1), es))
  {
    var p1 := Start(1).(status := map[7 := InFlight]);
    es := RacingLoses();
    es := RunFrom(p1.(stopping := 1), StopSet, Racing(), es);
    es := RunFrom(p1, StopTest, p1.(stopping := 1), es);
    es := RunFrom(Start(1), SubmitTest(7), p1, es);
    LostMeansLost();
  }

  /** Two stops that overlap both set the flag, and owe two pills per worker. */
  lemma OverlappingStops(n: nat) returns (es: seq<Event>)
    ensures IsRun(Start(n), es) && Run(Start(n), es).stops == 2 && Run(Start(n), es).pillsLeft == 2 * n
  {
    var start := Start(n);
    var p1, p2 := start.(stopping := 1), start.(stopping := 2);
    var p3 := start.(stopped := true, stopping := 1, stops := 1, pillsLeft := n);
    var p4 := start.(stopped := true, stops := 2, pillsLeft := n + n);
    es := RunFrom(p3, StopSet, p4, []);
    es := RunFrom(p2, StopSet, p3, es);
    es := RunFrom(p1, StopTest, p2, es);
    es := RunFrom(start, StopTest, p1, es);
  }

  // ---------------------------------------------------------------- no deadlock

  predicate WorkerStep(e: Event) {
    e.WorkerGet? || e.Finish?
  }

  /** While the queue holds an item, or while clean-up still waits for a worker, some worker can
      step without a spurious wakeup: no join waits on a pool that is all asleep. */
  lemma WorkersNeverAllStuck(p: Pool)
    requires PoolInv(p) && !(forall w | 0 <= w < p.nthreads :: w in p.done)
    requires p.m.items != [] || (p.stopped && p.pillsLeft == 0)
    ensures exists e :: WorkerStep(e) && Enabled(p, e)
  {
    var w :| 0 <= w < p.nthreads && w !in p.done;
    if w in p.busy {
      assert WorkerStep(Finish(w)) && Enabled(p, Finish(w));
    } else if w !in p.m.sleeping {
      assert WorkerStep(WorkerGet(w)) && Enabled(p, WorkerGet(w));
    } else if v :| v in p.m.notified {
      assert WorkerStep(WorkerGet(v)) && Enabled(p, WorkerGet(v));
    } else {
      assert p.m.notified == {};
      assert p.inserted == p.taken;
      StoppedIsTooLate(p);
      WorkersBelow(p.nthreads, p.done);
      assert false;
    }
  }

  // ---------------------------------------------------------------- how soon the joins return

  /** Worker steps left: three per item (to take it, to finish it, to look again), one per action
      running, and one per worker that is awake at its loop. */
  function Work(p: Pool): int {
    3 * |p.m.items| + |p.busy| + p.nthreads - |p.done| - |p.m.sleeping|
  }

  function WorkerSteps(es: seq<Event>): nat {
    if es == [] then 0 else (if WorkerStep(es[0]) then 1 else 0) + WorkerSteps(es[1..])
  }

  function Puts(es: seq<Event>): nat {
    if es == [] then 0 else (if es[0].SubmitPut? || es[0].StopPill? then 1 else 0) + Puts(es[1..])
  }

  /** Threads woken, by a signal or spuriously. */
  function Woken(e: Event): nat {
    if e.SubmitPut? || e.StopPill? then |e.woken| else if e.WorkerWakes? then 1 else 0
  }

  function Wakeups(es: seq<Event>): nat {
    if es == [] then 0 else Woken(es[0]) + Wakeups(es[1..])
  }

  /** What a step may add to the work: an item put, and the threads it wakes. */
  function Added(e: Event): nat {
    (if e.SubmitPut? || e.StopPill? then 3 else 0) + Woken(e)
  }

  lemma StepUsesWork(p: Pool, e: Event)
    requires Enabled(p, e)
    ensures Work(Next(p, e)) <= Work(p) + Added(e) - if WorkerStep(e) then 1 else 0
  {
    match e
    case SubmitPut(c, woken) => PutAddsWork(p, Act(c), woken);
    case StopPill(woken) => PutAddsWork(p, Pill, woken);
    case WorkerGet(w) => TakeUsesWork(p, w);
    case Finish(w) => OneLess(p.busy, w);
    case _ =>
  }

  lemma PutAddsWork(p: Pool, x: Item, woken: set<nat>)
    requires Queue.Signals(p.m, woken)
    ensures Work(Put(p, x, woken)) == Work(p) + 3 + |woken|
  {
    assert |p.m.sleeping - woken| == |p.m.sleeping| - |woken|;
  }

  lemma TakeUsesWork(p: Pool, w: nat)
    requires Looping(p, w) && w !in p.m.sleeping
    ensures Work(Take(p, w)) < Work(p)
  {
    if p.m.items != [] && p.m.items[0].Act? {
      OneMore(p.busy, w, p.m.items[0].ticket);
    }
  }

  lemma OneMore(m: map<nat, nat>, w: nat, c: nat)
    requires w !in m
    ensures |m[w := c]| == |m| + 1
  {
    OneLess(m[w := c], w);
    assert m[w := c] - {w} == m;
  }

  lemma OneLess(m: map<nat, nat>, w: nat)
    requires w in m
    ensures |m - {w}| == |m| - 1
  {
    assert m == (m - {w})[w := m[w]];
  }

  lemma WorkNonNegative(p: Pool)
    requires PoolInv(p)
    ensures Work(p) >= 0
  {
    assert |p.done + p.m.sleeping| == |p.done| + |p.m.sleeping|;
    WorkersBelow(p.nthreads, p.done + p.m.sleeping);
  }

  lemma {:induction false} RunUsesWork(p: Pool, es: seq<Event>)
    requires PoolInv(p) && IsRun(p, es)
    ensures WorkerSteps(es) <= Work(p) + 3 * Puts(es) + Wakeups(es)
    decreases |es|
  {
    if es == [] {
      WorkNonNegative(p);
    } else {
      NextKeepsPoolInv(p, es[0]);
      StepUsesWork(p, es[0]);
      RunUsesWork(Next(p, es[0]), es[1..]);
    }
  }

  /** The joins return: workers take at most one step each, three per item put and one per wakeup;
      and once the pills are queued, a run in which no worker can step without a spurious wakeup has
      all workers gone. */
  lemma {:induction false} JoinsReturn(n: nat, es: seq<Event>)
    requires IsRun(Start(n), es)
    ensures WorkerSteps(es) <= n + 3 * Puts(es) + Wakeups(es)
    ensures var p := Run(Start(n), es);
            p.stopped && p.pillsLeft == 0 && (forall e :: Enabled(p, e) ==> !WorkerStep(e)) ==> Joined(p)
  {
    StartHasPoolInv(n);
    RunUsesWork(Start(n), es);
    RunKeepsPoolInv(Start(n), es);
    var p := Run(Start(n), es);
    if p.stopped && p.pillsLeft == 0 && !Joined(p) {
      WorkersNeverAllStuck(p);
    }
  }

  // ---------------------------------------------------------------- the code

  class ThreadPool {
    const nthreads: nat
    const workQueue: Queue.BlockingQueue<Item>
    var stopped: bool
    ghost var stopping: nat
    ghost var stops: nat
    var pillsLeft: nat
    var busy: map<nat, nat>
    var done: set<nat>
    ghost var status: map<nat, Status>
    ghost var ran: multiset<nat>
    ghost var inserted: seq<Item>
    ghost var taken: seq<Item>
    ghost var late: seq<Item>

    ghost predicate Valid() reads this, workQueue { workQueue.Valid() }

    ghost function View(): Pool reads this, workQueue {
      Pool(nthreads, workQueue.View(), stopped, stopping, stops, pillsLeft, busy, done,
           status, ran, inserted, taken, late)
    }

    constructor (nthreads: nat)
      ensures Valid() && fresh(workQueue) && View() == Start(nthreads)
    {
      this.nthreads := nthreads;
      stopped, stopping, stops, pillsLeft, busy, done := false, 0, 0, 0, map[], {};
      status, ran, inserted, taken, late := map[], multiset{}, [], [], [];
      workQueue := new Queue.BlockingQueue();
    }

    /** First half of `thread_pool_submit`: false means rejected. */
    method SubmitTest(ghost ticket: nat) returns (passed: bool)
      requires Valid() && Enabled(View(), Event.SubmitTest(ticket))
      modifies this
      ensures Valid() && passed == !old(stopped)
      ensures View() == Next(old(View()), Event.SubmitTest(ticket))
    {
      passed := !stopped;
      if passed {
        status := status[ticket := InFlight];
      }
    }

    /** Second half of `thread_pool_submit`. */
    method SubmitPut(ticket: nat, woken: set<nat>)
      requires Valid() && Enabled(View(), Event.SubmitPut(ticket, woken))
      modifies this, workQueue
      ensures Valid() && View() == Next(old(View()), Event.SubmitPut(ticket, woken))
      ensures workQueue.head == old(workQueue.head) + [Act(ticket)]
    {
      workQueue.Put(Act(ticket), woken);
      late := if TooLate(old(View())) then late + [Act(ticket)] else late;
      status, inserted := status[ticket := Queued], inserted + [Act(ticket)];
    }

    /** The test of `thread_pool_stop`: false means there is nothing to do. */
    method StopTest() returns (passed: bool)
      requires Valid()
      modifies this
      ensures Valid() && passed == !old(stopped) && View() == Next(old(View()), Event.StopTest)
      ensures View() == if passed then old(View()).(stopping := old(stopping) + 1) else old(View())
    {
      passed := !stopped;
      if passed {
        stopping := stopping + 1;
      }
    }

    method StopSet()
      requires Valid() && Enabled(View(), Event.StopSet)
      modifies this
      ensures Valid() && View() == Next(old(View()), Event.StopSet)
      ensures stopped && pillsLeft == old(pillsLeft) + nthreads && workQueue.View() == old(workQueue.View())
    {
      stopped, stopping := true, stopping - 1;
      pillsLeft, stops := pillsLeft + nthreads, stops + 1;
    }

    /** One turn of the loop in `thread_pool_stop`. */
    method StopPill(woken: set<nat>)
      requires Valid() && Enabled(View(), Event.StopPill(woken))
      modifies this, workQueue
      ensures Valid() && View() == Next(old(View()), Event.StopPill(woken))
      ensures workQueue.head == old(workQueue.head) + [Pill] && pillsLeft == old(pillsLeft) - 1
    {
      workQueue.Put(Pill, woken);
      late := if TooLate(old(View())) then late + [Pill] else late;
      pillsLeft, inserted := pillsLeft - 1, inserted + [Pill];
    }

    /** The worker's call to `queue_get` and its test for a pill. */
    method WorkerGet(worker: nat)
      requires Valid() && Enabled(View(), Event.WorkerGet(worker))
      modifies this, workQueue
      ensures Valid() && View() == Next(old(View()), Event.WorkerGet(worker))
      ensures if old(workQueue.head) == [] then worker in workQueue.sleeping
              else if old(workQueue.head)[0].Pill? then worker in done
              else worker in busy && busy[worker] == old(workQueue.head)[0].ticket
    {
      var item := workQueue.Get(worker);
      match item {
        case None =>
        case Some(Pill) =>
          done, taken := done + {worker}, taken + [Pill];
        case Some(Act(ticket)) =>
          busy, taken := busy[worker := ticket], taken + [Act(ticket)];
          status := status[ticket := Running(worker)];
      }
    }

    method Finish(worker: nat)
      requires Valid() && Enabled(View(), Event.Finish(worker))
      modifies this
      ensures Valid() && View() == Next(old(View()), Event.Finish(worker))
      ensures ran == old(ran) + multiset{old(busy)[worker]} && worker !in busy
    {
      ran, status := ran + multiset{busy[worker]}, status[busy[worker] := Status.Finished];
      busy := busy - {worker};
    }
  }
}
