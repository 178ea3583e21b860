/** The code of 14-uthread-scheduling: ctxsw.s one instruction at a time, and the functions of
    uthread.c around it, proved against the machine of `Machines`. */
module Uthreads {
  import opened Schedulers
  import opened Machines

  /** What a call leaves below stack pointer q: its return address and the callee's own words. */
  function CallWords(q: int, back: int, frame: Memory): Memory {
    frame + map[q - 1 := back]
  }

  function Departed(s: Sched, next: int): Sched {
    s.(running := next, exited := s.exited + multiset{s.running})
  }

  /** The next thread has a frame and room for a call on a stack that stays. */
  predicate CanExit(mem: Memory, curr: int, next: int, back: int, frame: Memory) {
    && next in mem && mem[next] - 1 in mem && mem[next] - 1 !in Block(curr) && Block(curr) <= mem.Keys
    && (forall a :: a in frame ==> a < mem[next] - 1)
    && FrameMapped(mem + CallWords(mem[next], back, frame) - Block(curr), mem[next])
  }

  lemma ExitLeaves(m: Mach, back: int, frame: Memory)
    requires MachInv(m) && NextThread(m.sched.main, m.sched.ready) in m.mem
    requires var q := m.mem[NextThread(m.sched.main, m.sched.ready)];
             (forall a :: a in frame ==> a < q - 1) && MEnabled(m, MEvent.UtExit(CallWords(q, back, frame)))
    ensures var next := NextThread(m.sched.main, m.sched.ready);
            && CanExit(m.mem, m.sched.running, next, back, frame)
            && var scratch := CallWords(m.mem[next], back, frame);
               MNext(m, MEvent.UtExit(scratch)) == AfterExit(m, scratch, Schedulers.Next(m.sched, Exit))
  {
    var next := NextThread(m.sched.main, m.sched.ready);
    var scratch := CallWords(m.mem[next], back, frame);
    ExitReleasesOwnBlock(m, scratch);
    EventKeepsThreads(m, MEvent.UtExit(scratch));
    assert FrameInv(m, next);
    ExitKeepsFrame(m, scratch, next, next);
    assert m.mem[next] - 1 in scratch;
    assert InRegion(m, next, m.mem[next] - 1);
    assert m.mem[next] - 1 in m.owner && m.owner[m.mem[next] - 1] == next;
    assert Exists(m, m.sched.running);
    assert InRegion(m, m.sched.running, m.mem[next] - 1) <==> m.mem[next] - 1 in Block(m.sched.running);
  }

  /** The frame of c fits, and the thread switched to then has one. */
  predicate CanSwitch(mem: Memory, c: Context, curr: int, next: int) {
    && FrameMapped(mem, c.rsp - FRAME_WORDS)
    && next in Store(mem, c, curr) && FrameMapped(Store(mem, c, curr), Store(mem, c, curr)[next])
  }

  lemma CanFromFrames(mem: Memory, c: Context, curr: int, next: int, d: Context)
    requires FrameMapped(mem, c.rsp - FRAME_WORDS) && FrameAt(Store(mem, c, curr), next, d)
    ensures CanSwitch(mem, c, curr, next)
  {
  }

  lemma CanAlways(m: Mach, ret: int, s: Sched)
    requires MaySwitch(m, s)
    ensures CanSwitch(m.mem, Current(m, ret), m.sched.running, s.running)
  {
    OwnFrameMapped(m);
    SwitchLoads(m, ret, s.running);
    CanFromFrames(m.mem, Current(m, ret), m.sched.running, s.running, Resumes(m, ret, s.running));
  }

  lemma RunSwitches(m: Mach, ret: int)
    requires MachInv(m) && MEnabled(m, MEvent.UtRun(ret))
    ensures CanSwitch(m.mem, Current(m, ret), m.sched.running, NextThread(m.sched.main, m.sched.ready))
    ensures MNext(m, MEvent.UtRun(ret)) == AfterSwitch(m, ret, Dispatch(m.sched, m.sched.ready))
  {
    EventKeepsThreads(m, MEvent.UtRun(ret));
    CanAlways(m, ret, Dispatch(m.sched, m.sched.ready));
  }

  lemma YieldSwitches(m: Mach, ret: int)
    requires MachInv(m) && MEnabled(m, MEvent.UtYield(ret))
    ensures var q := m.sched.ready + [m.sched.running];
            if m.sched.ready == [] then MNext(m, MEvent.UtYield(ret)) == m
            else
              CanSwitch(m.mem, Current(m, ret), m.sched.running, NextThread(m.sched.main, q)) &&
              MNext(m, MEvent.UtYield(ret)) == AfterSwitch(m, ret, Dispatch(m.sched, q))
  {
    EventKeepsThreads(m, MEvent.UtYield(ret));
    if m.sched.ready != [] {
      CanAlways(m, ret, Dispatch(m.sched, m.sched.ready + [m.sched.running]));
    }
  }

  /** In zeroed memory two writes make a whole frame. */
  lemma ZeroedFrame(mem: Memory, block: int, layout: Layout)
    requires forall a :: a in Block(block) ==> a in mem && mem[a] == 0
    ensures var p := block + STACK_WORDS - FRAME_WORDS;
            mem[p + 5 := 0][p + 6 := layout.internalStart] == mem + Frame(FirstContext(layout, block))
  {
    var p := block + STACK_WORDS - FRAME_WORDS;
    assert p in Block(block) && p + 1 in Block(block) && p + 2 in Block(block);
    assert p + 3 in Block(block) && p + 4 in Block(block);
  }

  lemma HeadsStored(mem: Memory, block: int, rsp: int, startRoutine: int, arg: int)
    ensures mem[block + RSP := rsp][block + START_ROUTINE := startRoutine][block + ARG := arg] ==
            mem + Heads(block, rsp, startRoutine, arg)
  {
  }

  /** Pushing the return address first makes no difference to the stored frame. */
  lemma SameStore(mem: Memory, c: Context, d: int)
    ensures Store(mem[c.rsp - 1 := c.rip], c, d) == Store(mem, c, d)
  {
    assert mem[c.rsp - 1 := c.rip] + Frame(c) == mem + Frame(c);
  }

  class Cpu {
    const layout: Layout
    const mainThread: int
    var mem: Memory
    var rbx: int
    var rbp: int
    var r12: int
    var r13: int
    var r14: int
    var r15: int
    var rsp: int
    var rip: int
    var rdi: int
    var rsi: int
    var runningThread: int
    var readyQueue: seq<int>
    ghost var created: multiset<int>
    ghost var exited: multiset<int>
    ghost var saved: map<int, Context>
    ghost var starts: map<int, (int, int)>
    ghost var owner: map<int, int>

    function RegsNow(): Regs reads this { Regs(rbx, rbp, r12, r13, r14, r15) }

    ghost function View(): Mach reads this {
      Mach(layout, mem, RegsNow(), rsp, rip, Sched(mainThread, runningThread, readyQueue, created, exited),
           saved, starts, owner)
    }

    /** The start of the program, with the main thread running on its stack. */
    constructor (layout: Layout, mainThread: int, mem: Memory, regs: Regs, rsp: int)
      requires Booted(Boot(layout, mem, regs, rsp, mainThread), mainThread)
      ensures View() == Boot(layout, mem, regs, rsp, mainThread) && MachInv(View())
    {
      this.layout, this.mainThread, this.mem := layout, mainThread, mem;
      rbx, rbp, r12, r13, r14, r15 := regs.rbx, regs.rbp, regs.r12, regs.r13, regs.r14, regs.r15;
      this.rsp, rip, rdi, rsi := rsp, 0, 0, 0;
      runningThread, readyQueue := mainThread, [];
      created, exited, saved, starts := multiset{}, multiset{}, map[], map[];
      owner := Boot(layout, mem, regs, rsp, mainThread).owner;
      BootHasInv(Boot(layout, mem, regs, rsp, mainThread), mainThread);
    }

    // -------------------------------------------------------------- instructions

    method Push(value: int)
      requires rsp - 1 in mem
      modifies this`rsp, this`mem
      ensures rsp == old(rsp) - 1 && mem == old(mem)[rsp := value]
    {
      rsp := rsp - 1;
      mem := mem[rsp := value];
    }

    method Pop() returns (value: int)
      requires rsp in mem
      modifies this`rsp
      ensures value == mem[old(rsp)] && rsp == old(rsp) + 1
    {
      value := mem[rsp];
      rsp := rsp + 1;
    }

    /** The six pops and the return that end both routines. */
    method PopFrame()
      requires FrameMapped(mem, rsp)
      modifies this`rsp, this`rip, this`rbx, this`rbp, this`r12, this`r13, this`r14, this`r15
      ensures Context(RegsNow(), rsp, rip) == LoadFrame(mem, old(rsp))
    {
      r15 := Pop();
      r14 := Pop();
      r13 := Pop();
      r12 := Pop();
      rbx := Pop();
      rbp := Pop();
      rip := Pop();
    }

    /** The six pushes, on top of the return address. */
    method PushFrame(ghost c: Context)
      requires FrameMapped(mem, rsp - 6) && c == Context(RegsNow(), rsp + 1, mem[rsp])
      modifies this`rsp, this`mem
      ensures rsp == old(rsp) - 6 && mem == old(mem) + Frame(c)
    {
      Push(rbp);
      Push(rbx);
      Push(r12);
      Push(r13);
      Push(r14);
      Push(r15);
    }

    /** `context_switch` up to its change of stacks. */
    method SaveContext(ghost c: Context)
      requires FrameMapped(mem, rsp - 6) && c == Context(RegsNow(), rsp + 1, mem[rsp])
      modifies this`mem, this`rsp
      ensures mem == Store(old(mem), c, rdi)
    {
      PushFrame(c);
      mem := mem[rdi := rsp];
    }

    /** `context_switch`, with the return address pushed by its call on top of the stack. */
    method ContextSwitch(ghost c: Context)
      requires FrameMapped(mem, rsp - 6) && c == Context(RegsNow(), rsp + 1, mem[rsp])
      requires rsi in Store(mem, c, rdi) && FrameMapped(Store(mem, c, rdi), Store(mem, c, rdi)[rsi])
      modifies this`mem, this`rsp, this`rip, this`rbx, this`rbp, this`r12, this`r13, this`r14, this`r15
      modifies this`runningThread
      ensures mem == Store(old(mem), c, rdi) && runningThread == rsi
      ensures Context(RegsNow(), rsp, rip) == LoadFrame(mem, Store(old(mem), c, rdi)[rsi])
    {
      SaveContext(c);
      runningThread := rsi;
      rsp := mem[rsi];
      PopFrame();
    }

    /** `cleanup_thread`: munmap of the descriptor's block, from a stack that is not in it. */
    method CleanupThread(victim: int)
      requires Block(victim) <= mem.Keys && rsp !in Block(victim)
      modifies this`mem
      ensures mem == old(mem) - Block(victim)
    {
      mem := mem - Block(victim);
    }

    /** `call cleanup_thread`; `back` and `frame` are what the call leaves below the stack pointer. */
    method CallCleanup(back: int, frame: Memory)
      requires rsp - 1 in mem && rsp - 1 !in Block(rdi) && Block(rdi) <= mem.Keys
      requires forall a :: a in frame ==> a < rsp - 1
      modifies this`mem, this`rsp
      ensures mem == old(mem) + (frame + map[rsp - 1 := back]) - Block(rdi) && rsp == old(rsp)
    {
      Push(back);
      mem := mem + frame;
      assert mem == old(mem) + (frame + map[rsp := back]);
      CleanupThread(rdi);
      rsp := rsp + 1;
    }

    /** `internal_exit`. */
    method InternalExit(back: int, frame: Memory)
      requires rsi in mem && mem[rsi] - 1 in mem && mem[rsi] - 1 !in Block(rdi) && Block(rdi) <= mem.Keys
      requires forall a :: a in frame ==> a < mem[rsi] - 1
      requires FrameMapped(mem + (frame + map[mem[rsi] - 1 := back]) - Block(rdi), mem[rsi])
      modifies this`mem, this`rsp, this`rip, this`rbx, this`rbp, this`r12, this`r13, this`r14, this`r15
      modifies this`runningThread
      ensures mem == old(mem) + (frame + map[old(mem[rsi]) - 1 := back]) - Block(rdi)
      ensures FrameMapped(mem, old(mem[rsi]))
      ensures Context(RegsNow(), rsp, rip) == LoadFrame(mem, old(mem[rsi]))
      ensures runningThread == rsi
    {
      runningThread := rsi;
      rsp := mem[rsi];
      CallCleanup(back, frame);
      PopFrame();
    }

    // -------------------------------------------------------------- uthread.c

    method ExtractNextReadyThread() returns (next: int)
      modifies this`readyQueue
      ensures next == NextThread(mainThread, old(readyQueue)) && readyQueue == Rest(old(readyQueue))
    {
      if readyQueue == [] {
        return mainThread;
      }
      next := readyQueue[0];
      readyQueue := readyQueue[1..];
    }

    /** The context and the descriptor `ut_create` writes into a zeroed block. */
    method InitBlock(block: int, startRoutine: int, arg: int)
      modifies this`mem
      ensures mem == Initialized(old(mem), block, FirstContext(layout, block), startRoutine, arg)
    {
      mem := mem + Mapped(block);
      ZeroedFrame(mem, block, layout);
      var pctx := block + STACK_WORDS - FRAME_WORDS;
      HeadsStored(mem + Frame(FirstContext(layout, block)), block, pctx, startRoutine, arg);
      mem := mem[pctx + 5 := 0];
      mem := mem[pctx + 6 := layout.internalStart];
      mem := mem[block + RSP := pctx];
      mem := mem[block + START_ROUTINE := startRoutine];
      mem := mem[block + ARG := arg];
    }

    /** The end of `ut_create`: the thread is appended to the ready queue. */
    method Enqueue(block: int, ghost n: Mach)
      requires n == View().(sched := Schedulers.Next(View().sched, Create(block)),
                            saved := n.saved, starts := n.starts, owner := n.owner)
      modifies this`readyQueue, this`created, this`saved, this`starts, this`owner
      ensures View() == n
    {
      readyQueue := readyQueue + [block];
      created, saved, starts, owner := n.sched.created, n.saved, n.starts, n.owner;
    }

    method CreateThread(block: int, startRoutine: int, arg: int)
      modifies this
      ensures View() == AfterCreate(old(View()), block, startRoutine, arg)
    {
      ghost var n := AfterCreate(View(), block, startRoutine, arg);
      InitBlock(block, startRoutine, arg);
      assert mem == n.mem;
      Enqueue(block, n);
    }

    /** `ut_create`; `block` is what mmap returns. */
    method UtCreate(block: int, startRoutine: int, arg: int)
      requires MachInv(View()) && MEnabled(View(), MEvent.UtCreate(block, startRoutine, arg))
      modifies this
      ensures View() == MNext(old(View()), MEvent.UtCreate(block, startRoutine, arg))
      ensures readyQueue == old(readyQueue) + [block] && runningThread == old(runningThread)
    {
      CreateThread(block, startRoutine, arg);
    }

    /** The call of `context_switch` from `schedule`. */
    method CallContextSwitch(curr: int, next: int, ret: int)
      requires FrameMapped(mem, rsp - FRAME_WORDS)
      requires var stored := Store(mem, Context(RegsNow(), rsp, ret), curr);
               next in stored && FrameMapped(stored, stored[next])
      modifies this`mem, this`rsp, this`rip, this`rbx, this`rbp, this`r12, this`r13, this`r14, this`r15,
               this`runningThread, this`rdi, this`rsi
      ensures mem == Store(old(mem), Context(old(RegsNow()), old(rsp), ret), curr) && runningThread == next
      ensures Context(RegsNow(), rsp, rip) == LoadFrame(mem, mem[next])
    {
      ghost var c := Context(RegsNow(), rsp, ret);
      SameStore(mem, c, curr);
      rdi, rsi := curr, next;
      Push(ret);
      ContextSwitch(c);
    }

    /** The history kept of the thread just suspended. */
    ghost method Record(n: Mach)
      requires View().(saved := n.saved) == n
      modifies this`saved
      ensures View() == n
    {
      saved := n.saved;
    }

    method SwitchTo(next: int, ret: int)
      requires CanSwitch(mem, Context(RegsNow(), rsp, ret), runningThread, next)
      modifies this
      ensures View() == AfterSwitch(old(View()), ret, old(View()).sched.(running := next))
    {
      ghost var n := AfterSwitch(View(), ret, View().sched.(running := next));
      CallContextSwitch(runningThread, next, ret);
      Record(n);
    }

    /** `schedule`; `ret` is where its call of `context_switch` returns to. */
    method Schedule(ret: int)
      requires CanSwitch(mem, Context(RegsNow(), rsp, ret), runningThread, NextThread(mainThread, readyQueue))
      modifies this
      ensures View() == AfterSwitch(old(View()), ret, Dispatch(old(View()).sched, old(readyQueue)))
    {
      var next := ExtractNextReadyThread();
      SwitchTo(next, ret);
    }

    /** `ut_run`, called by the main thread. */
    method UtRun(ret: int)
      requires MachInv(View()) && MEnabled(View(), MEvent.UtRun(ret))
      modifies this
      ensures View() == MNext(old(View()), MEvent.UtRun(ret))
    {
      RunSwitches(View(), ret);
      Schedule(ret);
    }

    /** `ut_yield`. */
    method UtYield(ret: int)
      requires MachInv(View()) && MEnabled(View(), MEvent.UtYield(ret))
      modifies this
      ensures View() == MNext(old(View()), MEvent.UtYield(ret))
      ensures old(readyQueue) == [] ==> View() == old(View())
      ensures old(readyQueue) != [] ==> readyQueue == old(readyQueue)[1..] + [old(runningThread)]
    {
      YieldSwitches(View(), ret);
      if readyQueue != [] {
        readyQueue := readyQueue + [runningThread];
        Schedule(ret);
      }
    }

    /** `internal_start` up to the call it makes: which routine, with which argument. */
    method InternalStart() returns (routine: int, arg: int)
      requires MachInv(View()) && runningThread != mainThread
      ensures runningThread in starts && (routine, arg) == starts[runningThread]
    {
      assert StartInv(View(), runningThread);
      routine, arg := mem[runningThread + START_ROUTINE], mem[runningThread + ARG];
    }

    /** The call of `internal_exit` from `ut_exit`. */
    method CallInternalExit(next: int, back: int, frame: Memory)
      requires CanExit(mem, runningThread, next, back, frame)
      modifies this`mem, this`rsp, this`rip, this`rbx, this`rbp, this`r12, this`r13, this`r14, this`r15,
               this`runningThread, this`rdi, this`rsi
      ensures mem == old(mem) + CallWords(old(mem[next]), back, frame) - Block(old(runningThread))
      ensures FrameMapped(mem, old(mem[next])) && Context(RegsNow(), rsp, rip) == LoadFrame(mem, old(mem[next]))
      ensures runningThread == next
    {
      rdi, rsi := runningThread, next;
      InternalExit(back, frame);
    }

    method ExitTo(next: int, back: int, frame: Memory)
      requires CanExit(mem, runningThread, next, back, frame)
      modifies this
      ensures View() == AfterExit(old(View()), CallWords(old(mem[next]), back, frame),
                                  Departed(old(View()).sched, next))
    {
      ghost var n := AfterExit(View(), CallWords(mem[next], back, frame), Departed(View().sched, next));
      CallInternalExit(next, back, frame);
      exited, owner := n.sched.exited, n.owner;
    }

    /** `ut_exit`. */
    method UtExit(back: int, frame: Memory)
      requires MachInv(View()) && NextThread(mainThread, readyQueue) in mem
      requires forall a :: a in frame ==> a < mem[NextThread(mainThread, readyQueue)] - 1
      requires MEnabled(View(), MEvent.UtExit(CallWords(mem[NextThread(mainThread, readyQueue)], back, frame)))
      modifies this
      ensures var q := old(mem[NextThread(mainThread, readyQueue)]);
              View() == MNext(old(View()), MEvent.UtExit(CallWords(q, back, frame)))
    {
      ExitLeaves(View(), back, frame);
      var next := ExtractNextReadyThread();
      ExitTo(next, back, frame);
    }
  }
}
