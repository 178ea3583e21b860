/** The context switch (14-uthread-scheduling/ctxsw.s) and the stacks it works on.

    Memory is a map from the addresses that are mapped to words, counted in 8-byte words; reading
    or writing any other address is a fault, so releasing a stack is removing its addresses. The
    registers are the callee-saved ones of section 3.2.1 of the System V AMD64 ABI. A thread is
    named by the address of its descriptor, which for user threads is the base of its stack block. */
module Machines {
  import opened Schedulers

  type Memory = map<int, int>

  /** STACK_SIZE, sizeof (uthread_context_t) and sizeof (uthread_t) in words. */
  const STACK_WORDS: int := 4096
  const FRAME_WORDS: int := 7
  const DESCRIPTOR_WORDS: int := 5

  /** Offsets in a descriptor. */
  const RSP: int := 0
  const START_ROUTINE: int := 1
  const ARG: int := 2

  datatype Regs = Regs(rbx: int, rbp: int, r12: int, r13: int, r14: int, r15: int)

  /** What a thread is resumed with. */
  datatype Context = Context(regs: Regs, rsp: int, rip: int)

  /** Addresses fixed by the program: `internal_start`, the main thread's descriptor and its stack. */
  datatype Layout = Layout(internalStart: int, mainLo: int, mainHi: int)

  datatype Mach = Mach(
    layout: Layout,
    mem: Memory,
    regs: Regs,
    rsp: int,
    rip: int,
    sched: Sched,
    saved: map<int, Context>,      // history: each suspended thread, as it was when suspended
    starts: map<int, (int, int)>,  // history: routine and argument of each created thread
    owner: map<int, int>)          // history: which thread an address belongs to

  // ---------------------------------------------------------------- frames

  /** The words the six pushes and the call leave on the stack, at `rsp` - 7 .. `rsp`. */
  function Frame(c: Context): Memory {
    var p := c.rsp - FRAME_WORDS;
    map[p := c.regs.r15, p + 1 := c.regs.r14, p + 2 := c.regs.r13, p + 3 := c.regs.r12,
        p + 4 := c.regs.rbx, p + 5 := c.regs.rbp, p + 6 := c.rip]
  }

  predicate FrameMapped(mem: Memory, p: int) {
    p in mem && p + 1 in mem && p + 2 in mem && p + 3 in mem && p + 4 in mem && p + 5 in mem && p + 6 in mem
  }

  /** What the six pops and the return load from the frame at p. */
  function LoadFrame(mem: Memory, p: int): Context
    requires FrameMapped(mem, p)
  {
    Context(Regs(mem[p + 4], mem[p + 5], mem[p + 3], mem[p + 2], mem[p + 1], mem[p]), p + FRAME_WORDS, mem[p + 6])
  }

  /** Memory once context c is on its stack and its place is in the descriptor at d. */
  function Store(mem: Memory, c: Context, d: int): Memory {
    (mem + Frame(c))[d + RSP := c.rsp - FRAME_WORDS]
  }

  lemma FrameRoundTrip(mem: Memory, c: Context)
    ensures FrameMapped(mem + Frame(c), c.rsp - FRAME_WORDS)
    ensures LoadFrame(mem + Frame(c), c.rsp - FRAME_WORDS) == c
  {
  }

  lemma FrameElsewhere(mem: Memory, c: Context, a: int)
    requires !(c.rsp - FRAME_WORDS <= a < c.rsp)
    ensures a in mem + Frame(c) <==> a in mem
    ensures a in mem ==> (mem + Frame(c))[a] == mem[a]
  {
  }

  // ---------------------------------------------------------------- who owns what

  function Lo(m: Mach, t: int): int {
    if t == m.sched.main then m.layout.mainLo else t + DESCRIPTOR_WORDS
  }

  function Hi(m: Mach, t: int): int {
    if t == m.sched.main then m.layout.mainHi else t + STACK_WORDS
  }

  /** The descriptor and the stack of a thread. */
  predicate InRegion(m: Mach, t: int, a: int) {
    t <= a < t + DESCRIPTOR_WORDS || Lo(m, t) <= a < Hi(m, t)
  }

  predicate InBlock(t: int, a: int) { t <= a < t + STACK_WORDS }

  /** The addresses mapped for a user thread and released when it exits. */
  function Block(t: int): (b: set<int>)
    ensures forall a :: a in b <==> InBlock(t, a)
  {
    set a | t <= a < t + STACK_WORDS && InBlock(t, a)
  }

  predicate Exists(m: Mach, t: int) {
    t == m.sched.main || Live(m.sched, t)
  }

  predicate Suspended(m: Mach, t: int) {
    Exists(m, t) && t != m.sched.running
  }

  /** Every mapped address belongs to exactly one existing thread, and every address of an
      existing thread is mapped: nothing is leaked, shared or released too early. */
  ghost predicate OwnerInv(m: Mach) {
    && m.owner.Keys == m.mem.Keys
    && (forall t, a {:trigger InRegion(m, t, a)} ::
          Exists(m, t) && InRegion(m, t, a) ==> a in m.owner && m.owner[a] == t)
    && (forall a :: a in m.owner ==> Exists(m, m.owner[a]) && InRegion(m, m.owner[a], a))
    && (m.sched.main + DESCRIPTOR_WORDS <= m.layout.mainLo || m.layout.mainHi <= m.sched.main)
  }

  /** The descriptor at d points at a frame of context c. */
  predicate FrameAt(mem: Memory, d: int, c: Context) {
    && d in mem && mem[d + RSP] == c.rsp - FRAME_WORDS
    && FrameMapped(mem, c.rsp - FRAME_WORDS) && LoadFrame(mem, c.rsp - FRAME_WORDS) == c
  }

  /** The frame lies within the thread's own stack, with room for one more call below it. */
  predicate FrameInside(m: Mach, t: int, c: Context) {
    Lo(m, t) < c.rsp - FRAME_WORDS && c.rsp <= Hi(m, t)
  }

  /** A suspended thread has an intact frame of the context it was suspended with. */
  ghost predicate FrameInv(m: Mach, t: int) {
    t in m.saved && FrameAt(m.mem, t, m.saved[t]) && FrameInside(m, t, m.saved[t])
  }

  predicate StartAt(mem: Memory, d: int, start: (int, int)) {
    d + START_ROUTINE in mem && d + ARG in mem && start == (mem[d + START_ROUTINE], mem[d + ARG])
  }

  /** A live user thread's descriptor still holds what it was created with. */
  ghost predicate StartInv(m: Mach, t: int) {
    t in m.starts && StartAt(m.mem, t, m.starts[t])
  }

  ghost predicate MemInv(m: Mach) {
    && OwnerInv(m)
    && (forall t {:trigger FrameInv(m, t)} :: Suspended(m, t) ==> FrameInv(m, t))
    && (forall t {:trigger StartInv(m, t)} :: Exists(m, t) && t != m.sched.main ==> StartInv(m, t))
    && m.rsp <= Hi(m, m.sched.running)
  }

  ghost predicate MachInv(m: Mach) {
    Inv(m.sched) && MemInv(m)
  }

  // ---------------------------------------------------------------- steps

  datatype MEvent =
    | UserCode(writes: Memory, regs: Regs, rsp: int, rip: int)  // anything the running thread does itself
    | UtCreate(t: int, routine: int, arg: int)
    | UtRun(ret: int)
    | UtYield(ret: int)
    | UtExit(scratch: Memory)  // what the call of cleanup_thread leaves on the next stack

  /** Room for the frame of a switch and one call below it. */
  predicate HasRoom(m: Mach) {
    Lo(m, m.sched.running) < m.rsp - FRAME_WORDS
  }

  ghost predicate MEnabled(m: Mach, e: MEvent) {
    match e
    case UserCode(writes, _, rsp, _) =>
      (forall a :: a in writes ==> Lo(m, m.sched.running) <= a < Hi(m, m.sched.running)) &&
      rsp <= Hi(m, m.sched.running)
    case UtCreate(t, _, _) => t != m.sched.main && (forall a :: a in Block(t) ==> a !in m.mem)
    case UtRun(_) => Enabled(m.sched, Run) && HasRoom(m)
    case UtYield(_) => Enabled(m.sched, Yield) && HasRoom(m)
    case UtExit(scratch) =>
      var next := NextThread(m.sched.main, m.sched.ready);
      Enabled(m.sched, Exit) && ScratchBelow(m, scratch, next)
  }

  function SchedEvent(e: MEvent): Event
    requires !e.UserCode?
  {
    match e
    case UtCreate(t, _, _) => Create(t)
    case UtRun(_) => Run
    case UtYield(_) => Yield
    case UtExit(_) => Exit
  }

  /** The first context of a thread: zeroed registers, an empty stack, `internal_start`. */
  function FirstContext(layout: Layout, t: int): Context {
    Context(Regs(0, 0, 0, 0, 0, 0), t + STACK_WORDS, layout.internalStart)
  }

  function Mapped(t: int): Memory {
    map a | a in Block(t) :: 0
  }

  function Owned(t: int): map<int, int> {
    map a | a in Block(t) :: t
  }

  /** The words `ut_create` writes at the base of the block. */
  function Heads(t: int, rsp: int, routine: int, arg: int): Memory {
    map[t + RSP := rsp, t + START_ROUTINE := routine, t + ARG := arg]
  }

  /** Memory with a fresh zeroed block holding context c and its descriptor. */
  function Initialized(mem: Memory, t: int, c: Context, routine: int, arg: int): Memory {
    mem + Mapped(t) + Frame(c) + Heads(t, c.rsp - FRAME_WORDS, routine, arg)
  }

  function AfterCreate(m: Mach, t: int, routine: int, arg: int): Mach {
    var c := FirstContext(m.layout, t);
    m.(mem := Initialized(m.mem, t, c, routine, arg),
       sched := Schedulers.Next(m.sched, Create(t)),
       saved := m.saved[t := c],
       starts := m.starts[t := (routine, arg)],
       owner := m.owner + Owned(t))
  }

  function Current(m: Mach, ret: int): Context {
    Context(m.regs, m.rsp, ret)
  }

  /** Memory once the running thread's context is on its stack and in its descriptor. */
  function Stored(m: Mach, ret: int): Memory {
    Store(m.mem, Current(m, ret), m.sched.running)
  }

  /** A context switch from the running thread to the one `sched` runs. */
  function AfterSwitch(m: Mach, ret: int, sched: Sched): Mach
    requires sched.running in Stored(m, ret) && FrameMapped(Stored(m, ret), Stored(m, ret)[sched.running])
  {
    var mem := Stored(m, ret);
    var c := LoadFrame(mem, mem[sched.running]);
    m.(mem := mem, regs := c.regs, rsp := c.rsp, rip := c.rip, sched := sched,
       saved := m.saved[m.sched.running := Current(m, ret)])
  }

  /** The running thread leaves: its block is gone and the next thread runs. */
  function AfterExit(m: Mach, scratch: Memory, sched: Sched): Mach
    requires sched.running in m.mem
    requires FrameMapped(m.mem + scratch - Block(m.sched.running), m.mem[sched.running])
  {
    var mem := m.mem + scratch - Block(m.sched.running);
    var c := LoadFrame(mem, m.mem[sched.running]);
    m.(mem := mem, regs := c.regs, rsp := c.rsp, rip := c.rip, sched := sched,
       owner := m.owner - Block(m.sched.running))
  }

  // ---------------------------------------------------------------- a switch

  /** `mem` agrees with the machine's memory outside the region of t. */
  ghost predicate OnlyTouches(m: Mach, mem: Memory, t: int) {
    forall a :: a in m.mem && !InRegion(m, t, a) ==> a in mem && mem[a] == m.mem[a]
  }

  /** What is in the region of one thread is out of reach of the writes of another. */
  lemma RegionKept(m: Mach, mem: Memory, t: int, u: int, a: int)
    requires OwnerInv(m) && OnlyTouches(m, mem, t)
    requires Exists(m, t) && Exists(m, u) && t != u && InRegion(m, u, a)
    ensures a in m.mem && a in mem && mem[a] == m.mem[a]
  {
    assert a in m.owner && m.owner[a] == u;
  }

  lemma FrameKept(m: Mach, mem: Memory, t: int, u: int)
    requires OwnerInv(m) && OnlyTouches(m, mem, t)
    requires Exists(m, t) && Exists(m, u) && t != u && FrameInv(m, u)
    ensures FrameAt(mem, u, m.saved[u])
  {
    var p := m.saved[u].rsp - FRAME_WORDS;
    RegionKept(m, mem, t, u, u);
    RegionKept(m, mem, t, u, p);
    RegionKept(m, mem, t, u, p + 1);
    RegionKept(m, mem, t, u, p + 2);
    RegionKept(m, mem, t, u, p + 3);
    RegionKept(m, mem, t, u, p + 4);
    RegionKept(m, mem, t, u, p + 5);
    RegionKept(m, mem, t, u, p + 6);
  }

  lemma StartKept(m: Mach, mem: Memory, t: int, u: int)
    requires OwnerInv(m) && OnlyTouches(m, mem, t)
    requires Exists(m, t) && Exists(m, u) && t != u && StartInv(m, u)
    ensures StartAt(mem, u, m.starts[u])
  {
    RegionKept(m, mem, t, u, u + START_ROUTINE);
    RegionKept(m, mem, t, u, u + ARG);
  }

  /** `mem2` is `mem` with a frame of c and its place at d, and no other change. */
  ghost predicate IsStored(mem: Memory, mem2: Memory, c: Context, d: int) {
    && mem2.Keys == mem.Keys && FrameAt(mem2, d, c)
    && (forall a :: a in mem && a != d && !(c.rsp - FRAME_WORDS <= a < c.rsp) ==> mem2[a] == mem[a])
  }

  /** Storing a context and its address d changes nothing else and reads back. */
  lemma StoreShape(mem: Memory, c: Context, d: int)
    requires d in mem && FrameMapped(mem, c.rsp - FRAME_WORDS) && !(c.rsp - FRAME_WORDS <= d < c.rsp)
    ensures IsStored(mem, Store(mem, c, d), c, d)
  {
    FrameRoundTrip(mem, c);
    assert (mem + Frame(c)).Keys == mem.Keys;
  }

  /** Storing the running thread's context stays within its own stack and descriptor. */
  lemma StoreStaysHome(m: Mach, ret: int)
    requires OwnerInv(m) && HasRoom(m) && Exists(m, m.sched.running) && m.rsp <= Hi(m, m.sched.running)
    ensures var cur := m.sched.running;
            var mem := Stored(m, ret);
            && OnlyTouches(m, mem, cur) && mem.Keys == m.mem.Keys
            && FrameAt(mem, cur, Current(m, ret))
            && (forall a :: a in m.mem && cur < a < cur + DESCRIPTOR_WORDS ==> mem[a] == m.mem[a])
  {
    OwnFrameMapped(m);
    DescriptorApart(m, m.sched.running);
    StoreShape(m.mem, Current(m, ret), m.sched.running);
    HomeFromShape(m, Stored(m, ret), Current(m, ret));
  }

  lemma HomeFromShape(m: Mach, mem: Memory, c: Context)
    requires OwnerInv(m) && Lo(m, m.sched.running) < c.rsp - FRAME_WORDS && c.rsp <= Hi(m, m.sched.running)
    requires IsStored(m.mem, mem, c, m.sched.running)
    ensures OnlyTouches(m, mem, m.sched.running)
    ensures forall a :: a in m.mem && m.sched.running < a < m.sched.running + DESCRIPTOR_WORDS ==> mem[a] == m.mem[a]
  {
    forall a | a in m.mem && !InRegion(m, m.sched.running, a) ensures a in mem && mem[a] == m.mem[a] {
    }
  }

  lemma OwnFrameMapped(m: Mach)
    requires OwnerInv(m) && HasRoom(m) && Exists(m, m.sched.running) && m.rsp <= Hi(m, m.sched.running)
    ensures m.sched.running in m.mem && FrameMapped(m.mem, m.rsp - FRAME_WORDS)
  {
    var cur, p := m.sched.running, m.rsp - FRAME_WORDS;
    assert InRegion(m, cur, cur);
    assert InRegion(m, cur, p) && InRegion(m, cur, p + 1) && InRegion(m, cur, p + 2) && InRegion(m, cur, p + 3);
    assert InRegion(m, cur, p + 4) && InRegion(m, cur, p + 5) && InRegion(m, cur, p + 6);
  }

  /** The switch to a thread that exists loads exactly the context that thread was suspended with
      (its own present one, if it switches to itself). */
  lemma SwitchLoads(m: Mach, ret: int, next: int)
    requires MemInv(m) && HasRoom(m) && Exists(m, next)
    ensures next != m.sched.running ==> next in m.saved && FrameInside(m, next, m.saved[next])
    ensures FrameAt(Stored(m, ret), next, if next == m.sched.running then Current(m, ret) else m.saved[next])
  {
    StoreStaysHome(m, ret);
    if next != m.sched.running {
      assert FrameInv(m, next);
      FrameKept(m, Stored(m, ret), m.sched.running, next);
    }
  }

  /** `s` has the threads of the machine, one of them running. */
  ghost predicate SameThreads(m: Mach, s: Sched) {
    && s.main == m.sched.main && Exists(m, s.running)
    && forall t :: t == s.main || Live(s, t) <==> Exists(m, t)
  }

  ghost predicate MaySwitch(m: Mach, s: Sched) {
    MemInv(m) && HasRoom(m) && SameThreads(m, s)
  }

  ghost function Switched(m: Mach, ret: int, s: Sched): Mach
    requires MaySwitch(m, s)
  {
    SwitchLoads(m, ret, s.running);
    AfterSwitch(m, ret, s)
  }

  /** The context the thread chosen by `s` is to resume with. */
  ghost function Resumes(m: Mach, ret: int, next: int): Context
    requires next != m.sched.running ==> next in m.saved
  {
    if next == m.sched.running then Current(m, ret) else m.saved[next]
  }

  /** `n` is `m` after a switch, in terms of what changed. */
  ghost predicate IsSwitch(m: Mach, n: Mach, ret: int) {
    && n.layout == m.layout && n.sched.main == m.sched.main && n.starts == m.starts && n.owner == m.owner
    && n.mem == Stored(m, ret) && n.saved == m.saved[m.sched.running := Current(m, ret)]
    && (n.sched.running != m.sched.running ==> n.sched.running in m.saved)
    && Context(n.regs, n.rsp, n.rip) == Resumes(m, ret, n.sched.running)
    && SameThreads(m, n.sched)
  }

  lemma SwitchedIsSwitch(m: Mach, ret: int, s: Sched)
    requires MaySwitch(m, s)
    ensures IsSwitch(m, Switched(m, ret, s), ret)
  {
    SwitchLoads(m, ret, s.running);
  }

  lemma SwitchKeepsOwner(m: Mach, n: Mach, ret: int)
    requires MemInv(m) && HasRoom(m) && IsSwitch(m, n, ret)
    ensures OwnerInv(n)
  {
    StoreStaysHome(m, ret);
    assert forall t :: Exists(n, t) <==> Exists(m, t);
    assert forall t, a :: InRegion(n, t, a) <==> InRegion(m, t, a);
  }

  lemma SwitchKeepsFrame(m: Mach, n: Mach, ret: int, u: int)
    requires MemInv(m) && HasRoom(m) && IsSwitch(m, n, ret) && Exists(m, u)
    ensures FrameInv(n, u)
  {
    StoreStaysHome(m, ret);
    if u != m.sched.running {
      assert FrameInv(m, u);
      FrameKept(m, n.mem, m.sched.running, u);
    }
  }

  lemma SwitchKeepsStart(m: Mach, n: Mach, ret: int, u: int)
    requires MemInv(m) && HasRoom(m) && IsSwitch(m, n, ret) && Exists(m, u) && u != m.sched.main
    ensures StartInv(n, u)
  {
    StoreStaysHome(m, ret);
    assert StartInv(m, u);
    if u != m.sched.running {
      StartKept(m, n.mem, m.sched.running, u);
    }
  }

  lemma SwitchKeepsMem(m: Mach, ret: int, s: Sched)
    requires MaySwitch(m, s)
    ensures MemInv(Switched(m, ret, s))
  {
    var n := Switched(m, ret, s);
    SwitchedIsSwitch(m, ret, s);
    AnySwitchKeepsMem(m, n, ret);
  }

  lemma AnySwitchKeepsMem(m: Mach, n: Mach, ret: int)
    requires MemInv(m) && HasRoom(m) && IsSwitch(m, n, ret)
    ensures MemInv(n)
  {
    SwitchKeepsOwner(m, n, ret);
    forall u {:trigger FrameInv(n, u)} | Exists(m, u) ensures FrameInv(n, u) {
      SwitchKeepsFrame(m, n, ret, u);
    }
    forall u {:trigger StartInv(n, u)} | Exists(m, u) && u != m.sched.main ensures StartInv(n, u) {
      SwitchKeepsStart(m, n, ret, u);
    }
    SwitchLoads(m, ret, n.sched.running);
  }

  /** The scheduler's choice is a thread that exists, and dispatching creates no thread and ends
      only an exiting one. */
  lemma DispatchKeepsThreads(s: Sched, e: Event)
    requires Inv(s) && Enabled(s, e) && Switches(s, e)
    ensures var n := Schedulers.Next(s, e);
            && (n.running == s.main || Live(s, n.running)) && n.main == s.main
            && (forall t :: t == n.main || Live(n, t) <==> (t == s.main || Live(s, t)) && !(e.Exit? && t == s.running))
    ensures e.Exit? ==> Schedulers.Next(s, e).running != s.running
  {
    if e.Yield? {
      var q := s.ready + [s.running];
      assert forall t :: t in q <==> Live(s, t);
      assert q == [q[0]] + q[1..];
      assert forall t :: t in q <==> t == q[0] || t in q[1..];
    } else if s.ready != [] {
      assert forall t :: t in s.ready <==> t == s.ready[0] || t in s.ready[1..];
    }
  }

  // ---------------------------------------------------------------- exit

  ghost predicate ScratchBelow(m: Mach, scratch: Memory, next: int) {
    next in m.saved && forall a :: a in scratch ==> Lo(m, next) <= a < m.saved[next].rsp - FRAME_WORDS
  }

  ghost predicate MayExit(m: Mach, scratch: Memory, next: int) {
    MemInv(m) && m.sched.running != m.sched.main && Suspended(m, next) && ScratchBelow(m, scratch, next)
  }

  function Released(m: Mach, scratch: Memory): Memory {
    m.mem + scratch - Block(m.sched.running)
  }

  lemma ExitKeepsWord(m: Mach, scratch: Memory, next: int, u: int, a: int)
    requires OwnerInv(m) && m.sched.running != m.sched.main && Suspended(m, next) && Suspended(m, u)
    requires ScratchBelow(m, scratch, next) && m.saved[next].rsp <= Hi(m, next)
    requires InRegion(m, u, a) && (u == next ==> a < Lo(m, next) || m.saved[next].rsp - FRAME_WORDS <= a)
    ensures a in m.mem && a in Released(m, scratch) && Released(m, scratch)[a] == m.mem[a]
  {
    var cur := m.sched.running;
    assert a in m.owner && m.owner[a] == u;
    assert Exists(m, cur) && (InBlock(cur, a) ==> InRegion(m, cur, a));
    assert a in scratch ==> InRegion(m, next, a);
  }

  /** Calling cleanup_thread on the next thread's stack and releasing the exiting thread's block
      leaves the frame of every other thread, the next one's included, as it was. */
  lemma ExitKeepsFrame(m: Mach, scratch: Memory, next: int, u: int)
    requires MayExit(m, scratch, next) && Suspended(m, u)
    ensures u in m.saved && FrameAt(Released(m, scratch), u, m.saved[u])
  {
    assert FrameInv(m, u) && FrameInv(m, next);
    var p := m.saved[u].rsp - FRAME_WORDS;
    DescriptorApart(m, next);
    ExitKeepsWord(m, scratch, next, u, u);
    ExitKeepsWord(m, scratch, next, u, p);
    ExitKeepsWord(m, scratch, next, u, p + 1);
    ExitKeepsWord(m, scratch, next, u, p + 2);
    ExitKeepsWord(m, scratch, next, u, p + 3);
    ExitKeepsWord(m, scratch, next, u, p + 4);
    ExitKeepsWord(m, scratch, next, u, p + 5);
    ExitKeepsWord(m, scratch, next, u, p + 6);
  }

  lemma DescriptorApart(m: Mach, t: int)
    requires OwnerInv(m)
    ensures t < Lo(m, t) || Hi(m, t) <= t
  {
  }

  /** `n` is `m` after its running thread has exited to `next`. */
  ghost predicate IsExit(m: Mach, n: Mach, scratch: Memory) {
    && n.layout == m.layout && n.sched.main == m.sched.main && n.starts == m.starts && n.saved == m.saved
    && n.mem == Released(m, scratch) && n.owner == m.owner - Block(m.sched.running)
    && n.sched.running in m.saved
    && Context(n.regs, n.rsp, n.rip) == m.saved[n.sched.running]
    && (forall t :: Exists(n, t) <==> Exists(m, t) && t != m.sched.running)
  }

  lemma ExitKeepsOwner(m: Mach, n: Mach, scratch: Memory)
    requires MayExit(m, scratch, n.sched.running) && IsExit(m, n, scratch)
    ensures OwnerInv(n)
  {
    var cur, next := m.sched.running, n.sched.running;
    assert forall t, a :: InRegion(n, t, a) <==> InRegion(m, t, a);
    assert FrameInv(m, next);
    forall a ensures a in scratch ==> a in m.mem {
      if a in scratch {
        assert InRegion(m, next, a);
      }
    }
    forall a ensures InBlock(cur, a) <==> InRegion(m, cur, a) {
    }
    assert Exists(m, cur);
  }

  lemma ExitKeepsThread(m: Mach, n: Mach, scratch: Memory, u: int)
    requires MayExit(m, scratch, n.sched.running) && IsExit(m, n, scratch) && Suspended(m, u)
    ensures FrameInv(n, u)
    ensures u != m.sched.main ==> StartInv(n, u)
  {
    assert FrameInv(m, u) && FrameInv(m, n.sched.running);
    ExitKeepsFrame(m, scratch, n.sched.running, u);
    if u != m.sched.main {
      assert StartInv(m, u);
      DescriptorApart(m, n.sched.running);
      ExitKeepsWord(m, scratch, n.sched.running, u, u + START_ROUTINE);
      ExitKeepsWord(m, scratch, n.sched.running, u, u + ARG);
    }
  }

  lemma ExitKeepsMem(m: Mach, n: Mach, scratch: Memory)
    requires MayExit(m, scratch, n.sched.running) && IsExit(m, n, scratch)
    ensures MemInv(n)
  {
    ExitKeepsOwner(m, n, scratch);
    assert FrameInv(m, n.sched.running);
    forall u {:trigger FrameInv(n, u)} {:trigger StartInv(n, u)} | Exists(n, u)
      ensures FrameInv(n, u) && (u != m.sched.main ==> StartInv(n, u))
    {
      ExitKeepsThread(m, n, scratch, u);
    }
  }

  // ---------------------------------------------------------------- create

  ghost predicate MayCreate(m: Mach, t: int) {
    MemInv(m) && t != m.sched.main && forall a :: a in Block(t) ==> a !in m.mem
  }

  /** A fresh block is not the block of any existing thread. */
  lemma FreshIsNew(m: Mach, t: int)
    requires MayCreate(m, t)
    ensures !Exists(m, t)
  {
    assert t in Block(t) && InRegion(m, t, t);
  }

  /** `n` is `m` with one more, ready, thread. */
  ghost predicate IsCreate(m: Mach, n: Mach, t: int, routine: int, arg: int) {
    && n.layout == m.layout && n.sched.main == m.sched.main && n.sched.running == m.sched.running
    && n.rsp == m.rsp
    && FrameAt(n.mem, t, FirstContext(m.layout, t)) && StartAt(n.mem, t, (routine, arg))
    && n.mem.Keys == m.mem.Keys + Block(t) && Extends(m.mem, n.mem)
    && n.saved == m.saved[t := FirstContext(m.layout, t)] && n.starts == m.starts[t := (routine, arg)]
    && n.owner == m.owner + Owned(t)
    && (forall u :: Exists(n, u) <==> Exists(m, u) || u == t)
  }

  lemma HeadsElsewhere(mem: Memory, t: int, rsp: int, routine: int, arg: int, a: int)
    requires a > t + ARG
    ensures a in mem + Heads(t, rsp, routine, arg) <==> a in mem
    ensures a in mem ==> (mem + Heads(t, rsp, routine, arg))[a] == mem[a]
  {
  }

  /** Writing a descriptor below a frame leaves the frame. */
  lemma DescriptorThenFrame(mem: Memory, c: Context, t: int, routine: int, arg: int)
    requires t + ARG < c.rsp - FRAME_WORDS
    ensures var n := mem + Frame(c) + Heads(t, c.rsp - FRAME_WORDS, routine, arg);
            FrameAt(n, t, c) && StartAt(n, t, (routine, arg))
  {
    var framed, p := mem + Frame(c), c.rsp - FRAME_WORDS;
    FrameRoundTrip(mem, c);
    HeadsElsewhere(framed, t, p, routine, arg, p);
    HeadsElsewhere(framed, t, p, routine, arg, p + 1);
    HeadsElsewhere(framed, t, p, routine, arg, p + 2);
    HeadsElsewhere(framed, t, p, routine, arg, p + 3);
    HeadsElsewhere(framed, t, p, routine, arg, p + 4);
    HeadsElsewhere(framed, t, p, routine, arg, p + 5);
    HeadsElsewhere(framed, t, p, routine, arg, p + 6);
  }

  lemma BlockKeys(mem: Memory, t: int, c: Context, routine: int, arg: int)
    requires c.rsp == t + STACK_WORDS
    ensures Initialized(mem, t, c, routine, arg).Keys == mem.Keys + Block(t)
  {
    Overwrite(mem + Mapped(t), Frame(c));
    Overwrite(mem + Mapped(t) + Frame(c), Heads(t, c.rsp - FRAME_WORDS, routine, arg));
  }

  lemma BlockElsewhere(mem: Memory, t: int, c: Context, routine: int, arg: int, a: int)
    requires c.rsp == t + STACK_WORDS && a !in Block(t)
    ensures a in mem ==>
              a in Initialized(mem, t, c, routine, arg) && Initialized(mem, t, c, routine, arg)[a] == mem[a]
  {
    FrameElsewhere(mem + Mapped(t), c, a);
  }

  ghost predicate Extends(mem: Memory, bigger: Memory) {
    forall a :: a in mem ==> a in bigger && bigger[a] == mem[a]
  }

  lemma CreateMemory(m: Mach, t: int, routine: int, arg: int)
    ensures var mem := Initialized(m.mem, t, FirstContext(m.layout, t), routine, arg);
            && FrameAt(mem, t, FirstContext(m.layout, t)) && StartAt(mem, t, (routine, arg))
            && mem.Keys == m.mem.Keys + Block(t)
            && ((forall a :: a in Block(t) ==> a !in m.mem) ==> Extends(m.mem, mem))
  {
    var c := FirstContext(m.layout, t);
    DescriptorThenFrame(m.mem + Mapped(t), c, t, routine, arg);
    BlockKeys(m.mem, t, c, routine, arg);
    if forall a :: a in Block(t) ==> a !in m.mem {
      forall a | a in m.mem
        ensures a in Initialized(m.mem, t, c, routine, arg) && Initialized(m.mem, t, c, routine, arg)[a] == m.mem[a]
      {
        BlockElsewhere(m.mem, t, c, routine, arg, a);
      }
    }
  }

  lemma FrameExtends(mem: Memory, bigger: Memory, d: int, c: Context)
    requires FrameAt(mem, d, c) && Extends(mem, bigger)
    ensures FrameAt(bigger, d, c)
  {
  }

  lemma CreateKeepsOwner(m: Mach, n: Mach, t: int, routine: int, arg: int)
    requires MayCreate(m, t) && IsCreate(m, n, t, routine, arg)
    ensures OwnerInv(n)
  {
    FreshIsNew(m, t);
    assert forall u, a :: InRegion(n, u, a) <==> InRegion(m, u, a);
    forall a ensures InRegion(n, t, a) <==> a in Block(t) {
    }
    assert n.owner.Keys == m.owner.Keys + Block(t);
  }

  lemma CreateKeepsThread(m: Mach, n: Mach, t: int, routine: int, arg: int, u: int)
    requires MayCreate(m, t) && IsCreate(m, n, t, routine, arg) && Exists(m, u) && u != t
    ensures Suspended(m, u) ==> FrameInv(n, u)
    ensures u != n.sched.main ==> StartInv(n, u)
  {
    if Suspended(m, u) {
      assert FrameInv(m, u);
      FrameExtends(m.mem, n.mem, u, m.saved[u]);
    }
    assert u != m.sched.main ==> StartInv(m, u);
  }

  lemma CreateKeepsMem(m: Mach, n: Mach, t: int, routine: int, arg: int)
    requires MayCreate(m, t) && IsCreate(m, n, t, routine, arg)
    ensures MemInv(n)
  {
    CreateKeepsOwner(m, n, t, routine, arg);
    FreshIsNew(m, t);
    assert FrameInv(n, t) && StartInv(n, t);
    forall u {:trigger FrameInv(n, u)} {:trigger StartInv(n, u)} | Exists(m, u)
      ensures (Suspended(m, u) ==> FrameInv(n, u)) && (u != n.sched.main ==> StartInv(n, u))
    {
      CreateKeepsThread(m, n, t, routine, arg, u);
    }
  }

  // ---------------------------------------------------------------- user code

  lemma Overwrite(mem: Memory, writes: Memory)
    requires forall a :: a in writes ==> a in mem
    ensures (mem + writes).Keys == mem.Keys
  {
    assert (mem + writes).Keys == mem.Keys + writes.Keys;
    assert forall a :: a in writes.Keys ==> a in mem.Keys;
  }

  lemma UserCodeKeepsMem(m: Mach, n: Mach, writes: Memory)
    requires MemInv(m) && Exists(m, m.sched.running)
    requires forall a :: a in writes ==> Lo(m, m.sched.running) <= a < Hi(m, m.sched.running)
    requires n == m.(mem := m.mem + writes, regs := n.regs, rsp := n.rsp, rip := n.rip)
    requires n.rsp <= Hi(m, m.sched.running)
    ensures MemInv(n)
  {
    var cur := m.sched.running;
    forall a | a in writes ensures a in m.mem && InRegion(m, cur, a) {
      assert InRegion(m, cur, a);
    }
    Overwrite(m.mem, writes);
    assert OnlyTouches(m, n.mem, cur);
    assert forall t :: Exists(n, t) <==> Exists(m, t);
    assert forall t, a :: InRegion(n, t, a) <==> InRegion(m, t, a);
    forall u {:trigger FrameInv(n, u)} | Suspended(n, u) ensures FrameInv(n, u) {
      assert FrameInv(m, u);
      FrameKept(m, n.mem, cur, u);
    }
    forall u {:trigger StartInv(n, u)} | Exists(n, u) && u != n.sched.main ensures StartInv(n, u) {
      assert StartInv(m, u);
      if u != cur {
        StartKept(m, n.mem, cur, u);
      }
    }
  }

  // ---------------------------------------------------------------- every step

  lemma EventKeepsThreads(m: Mach, e: MEvent)
    requires MachInv(m) && MEnabled(m, e) && !e.UserCode?
    ensures Enabled(m.sched, SchedEvent(e)) && Inv(Schedulers.Next(m.sched, SchedEvent(e)))
    ensures (e.UtRun? || e.UtYield?) && Switches(m.sched, SchedEvent(e)) ==>
              MaySwitch(m, Schedulers.Next(m.sched, SchedEvent(e)))
    ensures e.UtExit? ==> MayExit(m, e.scratch, Schedulers.Next(m.sched, Exit).running)
  {
    if e.UtCreate? {
      FreshIsNew(m, e.t);
    }
    NextKeepsInv(m.sched, SchedEvent(e));
    if Switches(m.sched, SchedEvent(e)) {
      DispatchKeepsThreads(m.sched, SchedEvent(e));
    }
  }

  ghost function MNext(m: Mach, e: MEvent): Mach
    requires MachInv(m) && MEnabled(m, e)
  {
    match e
    case UserCode(writes, regs, rsp, rip) => m.(mem := m.mem + writes, regs := regs, rsp := rsp, rip := rip)
    case UtCreate(t, routine, arg) => AfterCreate(m, t, routine, arg)
    case UtRun(ret) =>
      EventKeepsThreads(m, e);
      Switched(m, ret, Schedulers.Next(m.sched, Run))
    case UtYield(ret) =>
      EventKeepsThreads(m, e);
      if Switches(m.sched, Yield) then Switched(m, ret, Schedulers.Next(m.sched, Yield)) else m
    case UtExit(scratch) =>
      EventKeepsThreads(m, e);
      Left(m, scratch, Schedulers.Next(m.sched, Exit))
  }

  ghost function Left(m: Mach, scratch: Memory, s: Sched): Mach
    requires MayExit(m, scratch, s.running)
  {
    ExitKeepsFrame(m, scratch, s.running, s.running);
    assert FrameInv(m, s.running);
    AfterExit(m, scratch, s)
  }

  lemma LeftIsExit(m: Mach, scratch: Memory)
    requires MachInv(m) && MEnabled(m, UtExit(scratch))
    ensures MayExit(m, scratch, Schedulers.Next(m.sched, Exit).running)
    ensures IsExit(m, MNext(m, UtExit(scratch)), scratch)
  {
    var s := Schedulers.Next(m.sched, Exit);
    EventKeepsThreads(m, UtExit(scratch));
    DispatchKeepsThreads(m.sched, Exit);
    ExitKeepsFrame(m, scratch, s.running, s.running);
    assert FrameInv(m, s.running);
  }

  lemma CreateIsCreate(m: Mach, t: int, routine: int, arg: int)
    requires MachInv(m) && MEnabled(m, UtCreate(t, routine, arg))
    ensures IsCreate(m, MNext(m, UtCreate(t, routine, arg)), t, routine, arg)
  {
    var n := MNext(m, UtCreate(t, routine, arg));
    CreateMemory(m, t, routine, arg);
    assert forall u :: u in n.sched.ready <==> u in m.sched.ready || u == t;
  }

  lemma MNextKeepsInv(m: Mach, e: MEvent)
    requires MachInv(m) && MEnabled(m, e)
    ensures MachInv(MNext(m, e))
  {
    if !e.UserCode? {
      EventKeepsThreads(m, e);
    }
    match e
    case UserCode(writes, _, _, _) => UserCodeKeepsMem(m, MNext(m, e), writes);
    case UtCreate(t, routine, arg) =>
      CreateIsCreate(m, t, routine, arg);
      CreateKeepsMem(m, MNext(m, e), t, routine, arg);
    case UtRun(ret) => SwitchKeepsMem(m, ret, Schedulers.Next(m.sched, Run));
    case UtYield(ret) =>
      if Switches(m.sched, Yield) {
        SwitchKeepsMem(m, ret, Schedulers.Next(m.sched, Yield));
      }
    case UtExit(scratch) =>
      LeftIsExit(m, scratch);
      ExitKeepsMem(m, MNext(m, e), scratch);
  }

  /** The scheduler allows every step of the machine, and its part of the state follows. */
  lemma StepFollowsScheduler(m: Mach, e: MEvent)
    requires MachInv(m) && MEnabled(m, e)
    ensures e.UserCode? ==> MNext(m, e).sched == m.sched
    ensures !e.UserCode? ==>
              Enabled(m.sched, SchedEvent(e)) && MNext(m, e).sched == Schedulers.Next(m.sched, SchedEvent(e))
  {
    if !e.UserCode? {
      EventKeepsThreads(m, e);
    }
  }

  /** Whoever a step sets running resumes with exactly the registers, stack pointer and return
      address it was suspended with. */
  lemma ResumesAsSuspended(m: Mach, e: MEvent)
    requires MachInv(m) && MEnabled(m, e)
    ensures var n := MNext(m, e);
            n.sched.running != m.sched.running ==>
              n.sched.running in m.saved && Context(n.regs, n.rsp, n.rip) == m.saved[n.sched.running]
  {
    var n := MNext(m, e);
    if n.sched.running != m.sched.running {
      StepFollowsScheduler(m, e);
      EventKeepsThreads(m, e);
      match e {
        case UtRun(ret) => SwitchedIsSwitch(m, ret, n.sched);
        case UtYield(ret) => SwitchedIsSwitch(m, ret, n.sched);
        case UtExit(scratch) => LeftIsExit(m, scratch);
        case UtCreate(_, _, _) =>
      }
    }
  }

  lemma SetRunningWaited(m: Mach, e: MEvent)
    requires MachInv(m) && MEnabled(m, e) && MNext(m, e).sched.running != m.sched.running
    ensures Suspended(m, MNext(m, e).sched.running)
    ensures MNext(m, e).sched.main == m.sched.main && MNext(m, e).layout == m.layout
  {
    StepFollowsScheduler(m, e);
    assert !e.UserCode? && Switches(m.sched, SchedEvent(e));
    DispatchKeepsThreads(m.sched, SchedEvent(e));
  }

  lemma WaitsInside(m: Mach, t: int)
    requires MemInv(m) && Suspended(m, t)
    ensures t in m.saved && FrameInside(m, t, m.saved[t])
  {
    assert FrameInv(m, t);
  }

  lemma OwnsItsStack(n: Mach, t: int, a: int)
    requires OwnerInv(n) && Exists(n, t) && Lo(n, t) <= a < Hi(n, t)
    ensures a in n.mem && a in n.owner && n.owner[a] == t
  {
    assert InRegion(n, t, a);
  }

  /** The stack pointer is within the stack of t, with room for a switch, and the word below it
      belongs to t. */
  ghost predicate OnStackOf(m: Mach, t: int) {
    && Lo(m, t) < m.rsp - FRAME_WORDS && m.rsp <= Hi(m, t)
    && m.rsp - 1 in m.mem && m.rsp - 1 in m.owner && m.owner[m.rsp - 1] == t
  }

  /** The scheduler allows every step of the machine; and when it says that another thread runs, the
      processor is on the stack of that thread. */
  lemma MachineRefinesScheduler(m: Mach, e: MEvent)
    requires MachInv(m) && MEnabled(m, e) && !e.UserCode?
    ensures Enabled(m.sched, SchedEvent(e))
    ensures Schedulers.Next(m.sched, SchedEvent(e)).running != m.sched.running ==>
              OnStackOf(MNext(m, e), Schedulers.Next(m.sched, SchedEvent(e)).running)
  {
    var n := MNext(m, e);
    StepFollowsScheduler(m, e);
    if n.sched.running != m.sched.running {
      MNextKeepsInv(m, e);
      ResumesAsSuspended(m, e);
      SetRunningWaited(m, e);
      WaitsInside(m, n.sched.running);
      OwnsItsStack(n, n.sched.running, n.rsp - 1);
    }
  }

  /** On exit the block released is the exiting thread's own, still mapped until then; the stack
      pointer has left it, the next thread is another one, and no other address is released. */
  lemma ExitReleasesOwnBlock(m: Mach, scratch: Memory)
    requires MachInv(m) && MEnabled(m, UtExit(scratch))
    ensures var n := MNext(m, UtExit(scratch));
            var t := m.sched.running;
            && Block(t) <= m.mem.Keys && n.mem.Keys == m.mem.Keys - Block(t)
            && n.sched.running != t && n.sched.running in m.mem
            && m.mem[n.sched.running + RSP] !in Block(t) && n.rsp - 1 !in Block(t)
            && n.sched.exited[t] == m.sched.exited[t] + 1
  {
    var n := MNext(m, UtExit(scratch));
    var t := m.sched.running;
    LeftIsExit(m, scratch);
    ExitKeepsOwner(m, n, scratch);
    assert FrameInv(m, n.sched.running);
    forall a | a in Block(t) ensures a in m.owner && m.owner[a] == t {
      assert Exists(m, t) && InRegion(m, t, a);
    }
    var c := m.saved[n.sched.running];
    assert InRegion(m, n.sched.running, c.rsp - FRAME_WORDS) && InRegion(m, n.sched.running, c.rsp - 1);
    forall a | a in scratch ensures a in m.mem {
      assert InRegion(m, n.sched.running, a);
    }
  }

  // ---------------------------------------------------------------- runs

  ghost function Boot(layout: Layout, mem: Memory, regs: Regs, rsp: int, main: int): Mach {
    Mach(layout, mem, regs, rsp, 0, Schedulers.Start(main), map[], map[], map a | a in mem :: main)
  }

  /** The program starts with the main thread's descriptor and stack mapped, and nothing else. */
  ghost predicate Booted(m: Mach, main: int) {
    && m == Boot(m.layout, m.mem, m.regs, m.rsp, main)
    && (forall a :: a in m.mem <==> InRegion(m, main, a))
    && (main + DESCRIPTOR_WORDS <= m.layout.mainLo || m.layout.mainHi <= main)
    && m.rsp <= m.layout.mainHi
  }

  lemma BootHasInv(m: Mach, main: int)
    requires Booted(m, main)
    ensures MachInv(m)
  {
    assert Inv(m.sched);
    assert forall t :: Exists(m, t) <==> t == main;
  }

  ghost predicate MIsRun(m: Mach, es: seq<MEvent>)
    requires MachInv(m)
    decreases |es|
  {
    es == [] || (MEnabled(m, es[0]) && (MNextKeepsInv(m, es[0]); MIsRun(MNext(m, es[0]), es[1..])))
  }

  ghost function MRun(m: Mach, es: seq<MEvent>): (end: Mach)
    requires MachInv(m) && MIsRun(m, es)
    ensures MachInv(end)
    decreases |es|
  {
    if es == [] then m else (MNextKeepsInv(m, es[0]); MRun(MNext(m, es[0]), es[1..]))
  }

  /** The whole block of t is mapped, and for t. */
  ghost predicate HasBlock(m: Mach, t: int) {
    forall a :: a in Block(t) ==> a in m.mem && a in m.owner && m.owner[a] == t
  }

  lemma LiveHasBlock(m: Mach, t: int)
    requires MachInv(m) && t != m.sched.main
    ensures HasBlock(m, t) <==> Live(m.sched, t)
  {
    assert t in Block(t);
    if Live(m.sched, t) {
      assert Exists(m, t) && forall a :: a in Block(t) ==> InRegion(m, t, a);
    }
  }

  /** Over any run from the start: a user thread's block is mapped exactly from its creation to its
      exit, so each is released exactly once; every mapped address belongs to a thread that exists,
      so once all have exited only main's memory is left; and every suspended thread has an intact
      frame. */
  lemma MachineRunsAreSafe(m: Mach, main: int, es: seq<MEvent>, t: int)
    requires Booted(m, main) && (BootHasInv(m, main); MIsRun(m, es))
    ensures MachInv(m)
    ensures var end := MRun(m, es);
            && (t != main ==> end.sched.created[t] == end.sched.exited[t] + if HasBlock(end, t) then 1 else 0)
            && (forall a :: a in end.mem ==> a in end.owner && InRegion(end, end.owner[a], a))
            && (end.sched.created == end.sched.exited ==> forall a :: a in end.mem <==> InRegion(m, main, a))
            && (Suspended(end, t) ==> t in end.saved && FrameAt(end.mem, t, end.saved[t]))
  {
    BootHasInv(m, main);
    var end := MRun(m, es);
    FixedParts(m, es);
    AtMostOnce(end.sched.ready, t);
    if t != main {
      LiveHasBlock(end, t);
    }
    assert Suspended(end, t) ==> FrameInv(end, t);
    if end.sched.created == end.sched.exited {
      OnlyMainLeft(end);
      assert forall a :: InRegion(end, main, a) <==> InRegion(m, main, a);
    }
  }

  lemma OnlyMainLeft(m: Mach)
    requires MachInv(m) && m.sched.created == m.sched.exited
    ensures forall a :: a in m.mem <==> InRegion(m, m.sched.main, a)
  {
    forall t ensures Exists(m, t) <==> t == m.sched.main {
      assert m.sched.created[t] == m.sched.exited[t] + Presence(m.sched, t);
      AtMostOnce(m.sched.ready, t);
    }
    forall a ensures a in m.mem <==> InRegion(m, m.sched.main, a) {
      assert Exists(m, m.sched.main);
      assert a in m.owner ==> InRegion(m, m.owner[a], a);
    }
  }

  /** A run in which t does not run until the last event sets it running. */
  ghost predicate BackAfter(m: Mach, es: seq<MEvent>, t: int)
    requires MachInv(m)
    decreases |es|
  {
    m.sched.running != t && es != [] && MEnabled(m, es[0]) &&
    (MNextKeepsInv(m, es[0]);
     if |es| == 1 then MNext(m, es[0]).sched.running == t else BackAfter(MNext(m, es[0]), es[1..], t))
  }

  /** A suspended thread comes back, after any run of others, as it was suspended; and it still has
      its routine and argument. */
  lemma {:induction false} BackAsLeft(m: Mach, es: seq<MEvent>, t: int)
    requires MachInv(m) && Suspended(m, t) && BackAfter(m, es, t)
    ensures MIsRun(m, es) && MRun(m, es).sched.running == t
    ensures t in m.saved && Context(MRun(m, es).regs, MRun(m, es).rsp, MRun(m, es).rip) == m.saved[t]
    ensures t != m.sched.main ==> t in m.starts && StartAt(MRun(m, es).mem, t, m.starts[t])
    decreases |es|
  {
    assert FrameInv(m, t);
    assert t != m.sched.main ==> StartInv(m, t);
    var n := MNext(m, es[0]);
    MNextKeepsInv(m, es[0]);
    if t != m.sched.main {
      StepKeepsStart(m, es[0], t);
    }
    if |es| == 1 {
      StepFollowsScheduler(m, es[0]);
      ResumesAsSuspended(m, es[0]);
      assert es[1..] == [];
      assert t != n.sched.main ==> StartInv(n, t);
    } else {
      StepKeepsSaved(m, es[0], t);
      BackAsLeft(n, es[1..], t);
    }
  }

  lemma StepKeepsSaved(m: Mach, e: MEvent, t: int)
    requires MachInv(m) && MEnabled(m, e) && Suspended(m, t) && MNext(m, e).sched.running != t && t in m.saved
    ensures Suspended(MNext(m, e), t) && t in MNext(m, e).saved && MNext(m, e).saved[t] == m.saved[t]
  {
    StepFollowsScheduler(m, e);
    if e.UtCreate? {
      FreshIsNew(m, e.t);
    } else if !e.UserCode? && Switches(m.sched, SchedEvent(e)) {
      DispatchKeepsThreads(m.sched, SchedEvent(e));
    }
  }

  /** A thread that gives up the processor gets it back, after any run of other threads, with
      exactly the registers, stack pointer and return address it had. */
  lemma SwitchIsTransparent(m: Mach, away: MEvent, es: seq<MEvent>)
    requires MachInv(m) && MEnabled(m, away) && (away.UtRun? || away.UtYield?)
    requires (MNextKeepsInv(m, away); BackAfter(MNext(m, away), es, m.sched.running))
    ensures MachInv(MNext(m, away)) && MIsRun(MNext(m, away), es)
    ensures var end := MRun(MNext(m, away), es);
            && end.sched.running == m.sched.running
            && Context(end.regs, end.rsp, end.rip) == Context(m.regs, m.rsp, away.ret)
  {
    var t := m.sched.running;
    var n := MNext(m, away);
    MNextKeepsInv(m, away);
    EventKeepsThreads(m, away);
    StepFollowsScheduler(m, away);
    assert Switches(m.sched, SchedEvent(away));
    DispatchKeepsThreads(m.sched, SchedEvent(away));
    assert n.saved[t] == Current(m, away.ret);
    BackAsLeft(n, es, t);
  }

  lemma CreatedWaits(m: Mach, t: int, routine: int, arg: int)
    requires MachInv(m) && MEnabled(m, UtCreate(t, routine, arg))
    ensures var c := MNext(m, UtCreate(t, routine, arg));
            && MachInv(c) && Suspended(c, t) && t in c.saved && c.saved[t] == FirstContext(m.layout, t)
            && t in c.starts && c.starts[t] == (routine, arg)
  {
    MNextKeepsInv(m, UtCreate(t, routine, arg));
    CreateIsCreate(m, t, routine, arg);
    FreshIsNew(m, t);
  }

  /** The first time a created thread runs, whatever ran before, it enters `internal_start` with
      zeroed callee-saved registers on its own empty stack, and the routine and argument that
      `internal_start` reads through `running_thread` are its own. */
  lemma FirstResume(m: Mach, t: int, routine: int, arg: int, es: seq<MEvent>)
    requires MachInv(m) && MEnabled(m, UtCreate(t, routine, arg))
    requires (MNextKeepsInv(m, UtCreate(t, routine, arg)); BackAfter(MNext(m, UtCreate(t, routine, arg)), es, t))
    ensures var c := MNext(m, UtCreate(t, routine, arg));
            MachInv(c) && MIsRun(c, es) &&
            var n := MRun(c, es);
            && n.sched.running == t && n.regs == Regs(0, 0, 0, 0, 0, 0)
            && n.rsp == t + STACK_WORDS && n.rip == m.layout.internalStart
            && t + START_ROUTINE in n.mem && n.mem[t + START_ROUTINE] == routine
            && t + ARG in n.mem && n.mem[t + ARG] == arg
  {
    CreatedWaits(m, t, routine, arg);
    BackAsLeft(MNext(m, UtCreate(t, routine, arg)), es, t);
  }

  lemma {:induction false} FixedParts(m: Mach, es: seq<MEvent>)
    requires MachInv(m) && MIsRun(m, es)
    ensures MRun(m, es).sched.main == m.sched.main && MRun(m, es).layout == m.layout
    decreases |es|
  {
    if es != [] {
      MNextKeepsInv(m, es[0]);
      StepFollowsScheduler(m, es[0]);
      FixedParts(MNext(m, es[0]), es[1..]);
    }
  }

  lemma StepKeepsStart(m: Mach, e: MEvent, t: int)
    requires MachInv(m) && MEnabled(m, e) && Exists(m, t) && t in m.starts
    ensures t in MNext(m, e).starts && MNext(m, e).starts[t] == m.starts[t]
  {
    if e.UtCreate? {
      FreshIsNew(m, e.t);
    }
  }
}
