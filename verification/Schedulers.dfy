/** The cooperative scheduler (14-uthread-scheduling/uthread.c) without its machine: who runs, who
    is ready, and what create, run, yield and exit do to that. A thread is named by the address of
    its descriptor, which may be used again after the thread has exited. */
module Schedulers {

  /** `created` and `exited` are history. */
  datatype Sched = Sched(main: int, running: int, ready: seq<int>, created: multiset<int>, exited: multiset<int>)

  /** `Run` is the main thread calling ut_run; `Yield` and `Exit` are calls of the running user thread. */
  datatype Event = Create(t: int) | Run | Yield | Exit

  function Start(main: int): Sched {
    Sched(main, main, [], multiset{}, multiset{})
  }

  predicate Live(s: Sched, t: int) {
    t == s.running || t in s.ready
  }

  predicate Enabled(s: Sched, e: Event) {
    match e
    case Create(t) => t != s.main && !Live(s, t)
    case Run => s.running == s.main
    case Yield => s.running != s.main
    case Exit => s.running != s.main
  }

  /** `extract_next_ready_thread`: who is next, and the queue without it. */
  function NextThread(main: int, ready: seq<int>): int {
    if ready == [] then main else ready[0]
  }

  function Rest(ready: seq<int>): seq<int> {
    if ready == [] then [] else ready[1..]
  }

  function Dispatch(s: Sched, ready: seq<int>): Sched {
    s.(running := NextThread(s.main, ready), ready := Rest(ready))
  }

  function Next(s: Sched, e: Event): Sched {
    match e
    case Create(t) => s.(ready := s.ready + [t], created := s.created + multiset{t})
    case Run => Dispatch(s, s.ready)
    case Yield => if s.ready == [] then s else Dispatch(s, s.ready + [s.running])
    case Exit => Dispatch(s, s.ready).(exited := s.exited + multiset{s.running})
  }

  /** Whether the call moves the processor to the next thread. */
  predicate Switches(s: Sched, e: Event) {
    e.Run? || e.Exit? || (e.Yield? && s.ready != [])
  }

  ghost predicate NoDuplicates(q: seq<int>) {
    forall i, j :: 0 <= i < j < |q| ==> q[i] != q[j]
  }

  /** Live user threads are the running one and a duplicate-free queue without it or main, and
      they are the created threads that have not exited. */
  ghost predicate Inv(s: Sched) {
    && NoDuplicates(s.ready) && s.main !in s.ready && s.running !in s.ready
    && (forall t :: s.created[t] == s.exited[t] + Presence(s, t))
  }

  /** How often t is among the live user threads. */
  ghost function Presence(s: Sched, t: int): nat {
    multiset(s.ready)[t] + if t == s.running && t != s.main then 1 else 0
  }

  /** Taking the next thread off a duplicate-free queue. */
  lemma DispatchTakes(main: int, q: seq<int>)
    requires NoDuplicates(q) && main !in q
    ensures NoDuplicates(Rest(q)) && main !in Rest(q) && NextThread(main, q) !in Rest(q)
    ensures forall t :: multiset(q)[t] == multiset(Rest(q))[t] + if q != [] && t == NextThread(main, q) then 1 else 0
    ensures NextThread(main, q) == main <==> q == []
  {
    if q != [] {
      assert q == [q[0]] + q[1..];
    }
  }

  lemma NextKeepsInv(s: Sched, e: Event)
    requires Inv(s) && Enabled(s, e)
    ensures Inv(Next(s, e))
  {
    match e
    case Create(t) =>
      assert multiset(s.ready + [t]) == multiset(s.ready) + multiset{t};
    case Yield =>
      var q := s.ready + [s.running];
      assert multiset(q) == multiset(s.ready) + multiset{s.running};
      DispatchTakes(s.main, q);
    case _ => DispatchTakes(s.main, s.ready);
  }

  /** Main resumes only when every thread created has exited. */
  lemma MainResumesLast(s: Sched, e: Event)
    requires Inv(s) && Enabled(s, e)
    ensures Switches(s, e) && Next(s, e).running == s.main ==>
              Next(s, e).ready == [] && Next(s, e).created == Next(s, e).exited
  {
    NextKeepsInv(s, e);
    var n := Next(s, e);
    if Switches(s, e) && n.running == s.main {
      assert n.ready == [];
      forall t ensures n.created[t] == n.exited[t] {
        assert n.created[t] == n.exited[t] + Presence(n, t);
      }
      assert n.created == n.exited;
    }
  }

  // ---------------------------------------------------------------- runs

  ghost predicate IsRun(s: Sched, es: seq<Event>)
    decreases |es|
  {
    es == [] || (Enabled(s, es[0]) && IsRun(Next(s, es[0]), es[1..]))
  }

  ghost function RunAll(s: Sched, es: seq<Event>): Sched
    decreases |es|
  {
    if es == [] then s else RunAll(Next(s, es[0]), es[1..])
  }

  ghost function SwitchCount(s: Sched, es: seq<Event>): nat
    decreases |es|
  {
    if es == [] then 0 else (if Switches(s, es[0]) then 1 else 0) + SwitchCount(Next(s, es[0]), es[1..])
  }

  lemma {:induction false} RunsKeepInv(s: Sched, es: seq<Event>)
    requires Inv(s) && IsRun(s, es)
    ensures Inv(RunAll(s, es)) && RunAll(s, es).main == s.main
    decreases |es|
  {
    if es != [] {
      NextKeepsInv(s, es[0]);
      RunsKeepInv(Next(s, es[0]), es[1..]);
    }
  }

  /** Over any run from the start, live user threads are the running one and the queue, without
      repetition, and are exactly the created threads that have not exited. */
  lemma {:induction false} LiveThreads(main: int, es: seq<Event>)
    requires IsRun(Start(main), es)
    ensures var s := RunAll(Start(main), es);
            && NoDuplicates(s.ready) && main !in s.ready && s.running !in s.ready
            && (forall t :: s.created[t] == s.exited[t] + Presence(s, t))
            && (forall t :: Presence(s, t) <= 1)
  {
    RunsKeepInv(Start(main), es);
    forall t ensures Presence(RunAll(Start(main), es), t) <= 1 {
      AtMostOnce(RunAll(Start(main), es).ready, t);
    }
  }

  lemma {:induction false} AtMostOnce(q: seq<int>, t: int)
    requires NoDuplicates(q)
    ensures multiset(q)[t] == if t in q then 1 else 0
  {
    if q != [] {
      AtMostOnce(q[1..], t);
      assert q == [q[0]] + q[1..];
    }
  }

  lemma {:induction false} RunningStays(s: Sched, es: seq<Event>)
    requires SwitchCount(s, es) == 0
    ensures RunAll(s, es).running == s.running
    decreases |es|
  {
    if es != [] {
      RunningStays(Next(s, es[0]), es[1..]);
    }
  }

  /** Round robin: whatever mix of create, yield and exit occurs, after j switches the thread that
      was at position k is at position k - j, and after exactly k + 1 it is running. */
  lemma {:induction false} RoundRobin(s: Sched, es: seq<Event>, k: nat)
    requires IsRun(s, es) && k < |s.ready|
    ensures var j := SwitchCount(s, es);
            var end := RunAll(s, es);
            && (j <= k ==> k - j < |end.ready| && end.ready[k - j] == s.ready[k])
            && (j == k + 1 ==> end.running == s.ready[k])
    decreases |es|
  {
    if es != [] {
      var n := Next(s, es[0]);
      if !Switches(s, es[0]) {
        assert n.ready[k] == s.ready[k];
        RoundRobin(n, es[1..], k);
      } else if k > 0 {
        assert n.ready[k - 1] == s.ready[k];
        RoundRobin(n, es[1..], k - 1);
      } else if SwitchCount(s, es) == 1 {
        assert n.running == s.ready[0];
        RunningStays(n, es[1..]);
      }
    }
  }
}
