/** What the machine of `Machines` can do: from every state it reaches, every suspended thread can come
    back, new threads can be created, and all can exit until main is alone. */
module MachineProgress {
  import opened Schedulers
  import opened Machines

  /** The stack of the main thread has room for a switch at all. */
  predicate MainHasRoom(layout: Layout) {
    layout.mainLo + FRAME_WORDS < layout.mainHi
  }

  /** The running thread is back at the bottom of its stack. */
  function Unwind(m: Mach): MEvent {
    UserCode(map[], m.regs, Hi(m, m.sched.running), m.rip)
  }

  /** A thread may write what it likes on its own stack, and go anywhere there. */
  lemma CanCompute(m: Mach, writes: Memory, regs: Regs, rsp: int, rip: int)
    requires MachInv(m) && rsp <= Hi(m, m.sched.running)
    requires forall a :: a in writes ==> Lo(m, m.sched.running) <= a < Hi(m, m.sched.running)
    ensures MEnabled(m, UserCode(writes, regs, rsp, rip))
    ensures var n := MNext(m, UserCode(writes, regs, rsp, rip));
            MachInv(n) && n.sched == m.sched && n.mem.Keys == m.mem.Keys && n.regs == regs && n.rsp == rsp
  {
    MNextKeepsInv(m, UserCode(writes, regs, rsp, rip));
    forall a | a in writes ensures a in m.mem {
      OwnsItsStack(m, m.sched.running, a);
    }
    Overwrite(m.mem, writes);
  }

  lemma StepKeepsLayout(m: Mach, e: MEvent)
    requires MachInv(m) && MEnabled(m, e)
    ensures MachInv(MNext(m, e)) && MNext(m, e).layout == m.layout && MNext(m, e).sched.main == m.sched.main
  {
    MNextKeepsInv(m, e);
    StepFollowsScheduler(m, e);
  }

  lemma CanUnwind(m: Mach)
    requires MachInv(m) && MainHasRoom(m.layout)
    ensures MEnabled(m, Unwind(m)) && MNext(m, Unwind(m)).sched == m.sched && HasRoom(MNext(m, Unwind(m)))
  {
    StepFollowsScheduler(m, Unwind(m));
  }

  /** The call by which the running thread lets the next one run. */
  function GiveUp(m: Mach): MEvent {
    if m.sched.running == m.sched.main then UtRun(0) else UtYield(0)
  }

  lemma CanGiveUp(m: Mach)
    requires MachInv(m) && HasRoom(m) && m.sched.ready != []
    ensures MEnabled(m, GiveUp(m)) && MNext(m, GiveUp(m)).sched.running == m.sched.ready[0]
    ensures m.sched.ready[1..] <= MNext(m, GiveUp(m)).sched.ready
  {
    StepFollowsScheduler(m, GiveUp(m));
  }

  lemma CanExit(m: Mach)
    requires MachInv(m) && m.sched.running != m.sched.main
    ensures MEnabled(m, UtExit(map[]))
    ensures MNext(m, UtExit(map[])).sched.running == NextThread(m.sched.main, m.sched.ready)
    ensures MNext(m, UtExit(map[])).sched.ready == Rest(m.sched.ready)
  {
    var next := NextThread(m.sched.main, m.sched.ready);
    assert Suspended(m, next);
    assert FrameInv(m, next);
    StepFollowsScheduler(m, UtExit(map[]));
  }

  lemma BackStep(m: Mach, e: MEvent, es: seq<MEvent>, t: int) returns (longer: seq<MEvent>)
    requires MachInv(m) && MEnabled(m, e) && MachInv(MNext(m, e)) && m.sched.running != t
    requires BackAfter(MNext(m, e), es, t)
    ensures longer == [e] + es && BackAfter(m, longer, t)
  {
    longer := [e] + es;
    assert longer[1..] == es;
  }

  lemma BackAtOnce(m: Mach, e: MEvent, t: int) returns (es: seq<MEvent>)
    requires MachInv(m) && MEnabled(m, e) && m.sched.running != t && MNext(m, e).sched.running == t
    ensures es == [e] && BackAfter(m, es, t)
  {
    es := [e];
  }

  /** The thread at position k of the ready queue runs if the others only give up the processor. */
  lemma {:induction false} ReadyComesBack(m: Mach, k: nat) returns (es: seq<MEvent>)
    requires MachInv(m) && MainHasRoom(m.layout) && k < |m.sched.ready|
    ensures BackAfter(m, es, m.sched.ready[k])
    decreases k
  {
    var t := m.sched.ready[k];
    CanUnwind(m);
    StepKeepsLayout(m, Unwind(m));
    var u := MNext(m, Unwind(m));
    CanGiveUp(u);
    if k == 0 {
      es := BackAtOnce(u, GiveUp(u), t);
    } else {
      StepKeepsLayout(u, GiveUp(u));
      var n := MNext(u, GiveUp(u));
      assert n.sched.ready[k - 1] == u.sched.ready[1..][k - 1] == t;
      es := ReadyComesBack(n, k - 1);
      es := BackStep(u, GiveUp(u), es, t);
    }
    es := BackStep(m, Unwind(m), es, t);
  }

  lemma AllHaveExited(m: Mach)
    requires MachInv(m) && m.sched.running == m.sched.main && m.sched.ready == []
    ensures m.sched.created == m.sched.exited
  {
    forall t ensures m.sched.created[t] == m.sched.exited[t] {
      assert m.sched.created[t] == m.sched.exited[t] + Presence(m.sched, t);
    }
  }

  /** Main runs once the others have exited. */
  lemma {:induction false} MainComesBack(m: Mach) returns (es: seq<MEvent>)
    requires MachInv(m) && m.sched.running != m.sched.main
    ensures BackAfter(m, es, m.sched.main) && MIsRun(m, es)
    ensures var end := MRun(m, es).sched;
            end.running == m.sched.main && end.ready == [] && end.created == end.exited
    decreases |m.sched.ready|
  {
    CanExit(m);
    StepKeepsLayout(m, UtExit(map[]));
    var n := MNext(m, UtExit(map[]));
    if m.sched.ready == [] {
      es := BackAtOnce(m, UtExit(map[]), m.sched.main);
      assert es[1..] == [];
      AllHaveExited(n);
    } else {
      var rest := MainComesBack(n);
      es := BackStep(m, UtExit(map[]), rest, m.sched.main);
      assert es[1..] == rest;
    }
  }

  /** Every suspended thread can come back: `BackAsLeft` then says how. */
  lemma EveryoneCanComeBack(m: Mach, t: int) returns (es: seq<MEvent>)
    requires MachInv(m) && MainHasRoom(m.layout) && Suspended(m, t)
    ensures BackAfter(m, es, t)
  {
    if t == m.sched.main {
      es := MainComesBack(m);
    } else {
      var k :| 0 <= k < |m.sched.ready| && m.sched.ready[k] == t;
      es := ReadyComesBack(m, k);
    }
  }

  /** From every state, some run ends with main running and every created thread exited. */
  lemma CanFinish(m: Mach) returns (es: seq<MEvent>)
    requires MachInv(m) && MainHasRoom(m.layout)
    ensures MIsRun(m, es)
    ensures var end := MRun(m, es).sched;
            end.running == m.sched.main && end.ready == [] && end.created == end.exited
  {
    if m.sched.running != m.sched.main {
      es := MainComesBack(m);
    } else if m.sched.ready == [] {
      es := [];
      AllHaveExited(m);
    } else {
      CanUnwind(m);
      StepKeepsLayout(m, Unwind(m));
      var u := MNext(m, Unwind(m));
      CanGiveUp(u);
      StepKeepsLayout(u, GiveUp(u));
      var n := MNext(u, GiveUp(u));
      assert n.sched.running in m.sched.ready;
      var rest := MainComesBack(n);
      es := [Unwind(m), GiveUp(u)] + rest;
      assert es[1..] == [GiveUp(u)] + rest && es[1..][1..] == rest;
      assert MIsRun(u, es[1..]);
    }
  }

  lemma {:induction false} SomeAddressAbove(s: set<int>) returns (top: int)
    ensures forall a :: a in s ==> a < top
    decreases s
  {
    if a :| a in s {
      var rest := SomeAddressAbove(s - {a});
      top := if a < rest then rest else a + 1;
      assert forall b :: b in s ==> b == a || b in s - {a};
    } else {
      top := 0;
    }
  }

  /** There is always room in the address space for one more thread. */
  lemma CanCreate(m: Mach, routine: int, arg: int) returns (t: int)
    requires MachInv(m)
    ensures MEnabled(m, UtCreate(t, routine, arg))
  {
    t := SomeAddressAbove(m.mem.Keys + {m.sched.main});
  }
}
