/** The echo protocol on the byte rings themselves: server, clients and terminators take the five
    steps of each `mc_put` and `mc_get` in any order, on channels of `MemChannels` holding bytes of
    `Messages`. Every step is one of the protocol of `Echo`, or none. */
module EchoRings {
  import opened Commons
  import opened EchoPrograms
  import opened Messages
  import opened Tallies
  import E = Echo
  import M = MemChannels
  import Spec = ChannelSpec

  /** Where a program is, with the bytes it holds. Inside a call, `pcs` of the channel says where. */
  datatype Server =
    | Idle | Waited | Took(b: M.Bytes) | Got(b: M.Bytes)
    | Replying(b: M.Bytes) | WithSpace(b: M.Bytes) | Put(b: M.Bytes)
    | Leaving | Stopped

  datatype Phase =
    | Created | Ready
    | Sending(b: M.Bytes) | HasSpace(b: M.Bytes) | Sent(b: M.Bytes)
    | Awaiting(b: M.Bytes) | HasItem(b: M.Bytes) | Taken(b: M.Bytes)
    | Closed

  /** `sent` and `received` are the texts of the requests put and of the replies got. */
  datatype Client = Client(phase: Phase, rmc: M.Mc, sent: seq<string>, received: seq<string>)

  /** `terms` are the terminators inside their put: whether they have copied their message. */
  datatype Rings = Rings(pid: int, smc: M.Mc, server: Server, clients: map<int, Client>, terms: map<nat, bool>)

  datatype Event =
    | ServerStep
    | ClientStep(p: int)
    | Type(p: int, line: string, b: M.Bytes)  // the buffer once the line is in it
    | Create(p: int, junk: M.Bytes)
    | TermStart(k: nat)
    | TermCopy(k: nat)
    | TermPost(k: nat)
    | ServerMutex(e: M.Event)                 // any thread takes or drops the lock of the server channel
    | ReplyMutex(p: int, e: M.Event)          // ... of the reply channel of p

  const SERVER: nat := 0

  /** Thread numbers: clients are even, terminators odd. */
  function ClientThread(p: int): nat { if p < 0 then 0 else 2 * p }

  function TermThread(k: nat): nat { 2 * k + 1 }

  function TermBytes(): (b: M.Bytes)
    ensures |b| == SIZE
  {
    seq(SIZE, _ => 0)
  }

  /** The message with the server as its sender. */
  function Reply(pid: int, b: M.Bytes): (r: M.Bytes)
    requires IsInt(pid) && |b| == SIZE
    ensures |r| == SIZE
  {
    IntBytes(pid) + b[SENDER_SIZE..]
  }

  predicate IsStop(b: M.Bytes)
    requires |b| == SIZE
  {
    Sender(b) == 0 && b[SENDER_SIZE] == 0
  }

  predicate At(mc: M.Mc, t: nat, pc: M.Pc) { t in mc.pcs && mc.pcs[t] == pc }

  predicate GetsLocked(mc: M.Mc, t: nat) { t in mc.pcs && mc.pcs[t].GetLocked? }

  predicate GetsUnlocked(mc: M.Mc, t: nat) { t in mc.pcs && mc.pcs[t].GetUnlocked? }

  predicate IsMutex(e: M.Event) { e.Lock? || e.Unlock? }

  // ---------------------------------------------------------------- steps

  /** Sizes, and the range of process ids. */
  predicate WellFormed(c: Rings) {
    && IsInt(c.pid) && M.Sized(c.smc) && c.smc.elemSize == SIZE
    && (forall p :: p in c.clients ==> M.Sized(c.clients[p].rmc) && c.clients[p].rmc.elemSize == SIZE)
    && ((c.server.Took? || c.server.Got? || c.server.Replying? || c.server.WithSpace? || c.server.Put?) ==>
          |c.server.b| == SIZE)
  }

  predicate CanOpen(c: Rings, p: int) {
    p in c.clients && c.clients[p].phase != Closed
  }

  predicate ServerEnabled(c: Rings)
    requires WellFormed(c)
  {
    match c.server
    case Idle => M.Enabled(c.smc, M.GetWait(SERVER))
    case Waited => GetsLocked(c.smc, SERVER)
    case Took(_) => GetsUnlocked(c.smc, SERVER)
    case Got(_) => true
    case Replying(b) =>
      Sender(b) in c.clients && M.Enabled(c.clients[Sender(b)].rmc, M.PutWait(SERVER, Reply(c.pid, b)))
    case WithSpace(b) => Sender(b) in c.clients && At(c.clients[Sender(b)].rmc, SERVER, M.PutLocked(Reply(c.pid, b)))
    case Put(b) => Sender(b) in c.clients && At(c.clients[Sender(b)].rmc, SERVER, M.PutUnlocked)
    case Leaving => true
    case Stopped => false
  }

  function OnReply(c: Rings, p: int, e: M.Event): map<int, Client>
    requires p in c.clients && M.Sized(c.clients[p].rmc) && M.Enabled(c.clients[p].rmc, e)
  {
    c.clients[p := c.clients[p].(rmc := M.Next(c.clients[p].rmc, e))]
  }

  function ServerNext(c: Rings): Rings
    requires WellFormed(c) && ServerEnabled(c)
  {
    match c.server
    case Idle => c.(server := Waited, smc := M.Next(c.smc, M.GetWait(SERVER)))
    case Waited =>
      var smc := M.Next(c.smc, M.Copy(SERVER));
      c.(server := Took(smc.pcs[SERVER].msg), smc := smc)
    case Took(b) => c.(server := Got(b), smc := M.Next(c.smc, M.Post(SERVER)))
    case Got(b) =>
      c.(server := if IsStop(b) then Leaving else if CanOpen(c, Sender(b)) then Replying(b) else Idle)
    case Replying(b) =>
      c.(server := WithSpace(b), clients := OnReply(c, Sender(b), M.PutWait(SERVER, Reply(c.pid, b))))
    case WithSpace(b) => c.(server := Put(b), clients := OnReply(c, Sender(b), M.Copy(SERVER)))
    case Put(b) => c.(server := Idle, clients := OnReply(c, Sender(b), M.Post(SERVER)))
    case Leaving => c.(server := Stopped)
  }

  predicate ClientEnabled(c: Rings, p: int)
    requires WellFormed(c)
  {
    p in c.clients &&
    var t := ClientThread(p);
    var rmc := c.clients[p].rmc;
    match c.clients[p].phase
    case Created => true
    case Sending(b) => M.Enabled(c.smc, M.PutWait(t, b))
    case HasSpace(b) => At(c.smc, t, M.PutLocked(b)) && |b| == SIZE
    case Sent(_) => At(c.smc, t, M.PutUnlocked)
    case Awaiting(_) => M.Enabled(rmc, M.GetWait(t))
    case HasItem(_) => GetsLocked(rmc, t)
    case Taken(b) => GetsUnlocked(rmc, t) && |b| == SIZE
    case _ => false
  }

  function ClientNext(c: Rings, p: int): Rings
    requires WellFormed(c) && ClientEnabled(c, p)
  {
    var t := ClientThread(p);
    var k := c.clients[p];
    match k.phase
    case Created => c.(clients := c.clients[p := k.(phase := if c.server.Stopped? then Closed else Ready)])
    case Sending(b) =>
      c.(smc := M.Next(c.smc, M.PutWait(t, b)), clients := c.clients[p := k.(phase := HasSpace(b))])
    case HasSpace(b) =>
      c.(smc := M.Next(c.smc, M.Copy(t)), clients := c.clients[p := k.(phase := Sent(b), sent := k.sent + [Text(b)])])
    case Sent(b) => c.(smc := M.Next(c.smc, M.Post(t)), clients := c.clients[p := k.(phase := Awaiting(b))])
    case Awaiting(b) => c.(clients := c.clients[p := k.(phase := HasItem(b), rmc := M.Next(k.rmc, M.GetWait(t)))])
    case HasItem(_) =>
      var rmc := M.Next(k.rmc, M.Copy(t));
      c.(clients := c.clients[p := k.(phase := Taken(rmc.pcs[t].msg), rmc := rmc)])
    case Taken(b) =>
      c.(clients := c.clients[p := k.(phase := Ready, rmc := M.Next(k.rmc, M.Post(t)),
                                      received := k.received + [Text(b)])])
  }

  predicate Enabled(c: Rings, e: Event)
    requires WellFormed(c)
  {
    match e
    case ServerStep => ServerEnabled(c)
    case ClientStep(p) => ClientEnabled(c, p)
    case Type(p, line, b) =>
      p in c.clients && c.clients[p].phase == Ready && |line| < E.MSG_MAX_LEN &&
      |b| == SIZE && Sender(b) == p && Text(b) == E.Strip(line)
    case Create(p, junk) => p > 0 && IsInt(p) && p !in c.clients && |junk| == SIZE
    case TermStart(k) => k !in c.terms && M.Enabled(c.smc, M.PutWait(TermThread(k), TermBytes()))
    case TermCopy(k) => k in c.terms && !c.terms[k] && At(c.smc, TermThread(k), M.PutLocked(TermBytes()))
    case TermPost(k) => k in c.terms && c.terms[k] && At(c.smc, TermThread(k), M.PutUnlocked)
    case ServerMutex(e) => IsMutex(e) && M.Enabled(c.smc, e)
    case ReplyMutex(p, e) => p in c.clients && IsMutex(e) && M.Enabled(c.clients[p].rmc, e)
  }

  function Next(c: Rings, e: Event): Rings
    requires WellFormed(c) && Enabled(c, e)
  {
    match e
    case ServerStep => ServerNext(c)
    case ClientStep(p) => ClientNext(c, p)
    case Type(p, line, b) =>
      c.(clients := c.clients[p := c.clients[p].(phase := if b[SENDER_SIZE] == 0 then Closed else Sending(b))])
    case Create(p, junk) =>
      c.(clients := c.clients[p := Client(Created, M.Start(SIZE, E.REPLY_CAPACITY, junk), [], [])])
    case TermStart(k) =>
      c.(smc := M.Next(c.smc, M.PutWait(TermThread(k), TermBytes())), terms := c.terms[k := false])
    case TermCopy(k) => c.(smc := M.Next(c.smc, M.Copy(TermThread(k))), terms := c.terms[k := true])
    case TermPost(k) => c.(smc := M.Next(c.smc, M.Post(TermThread(k))), terms := c.terms - {k})
    case ServerMutex(e) => c.(smc := M.Next(c.smc, e))
    case ReplyMutex(p, e) => c.(clients := OnReply(c, p, e))
  }

  lemma RingKeepsSize(mc: M.Mc, e: M.Event)
    requires M.Sized(mc) && mc.elemSize == SIZE && M.Enabled(mc, e)
    ensures M.Sized(M.Next(mc, e)) && M.Next(mc, e).elemSize == SIZE
    ensures e.Copy? && mc.pcs[e.thread].GetLocked? ==> |M.Next(mc, e).pcs[e.thread].msg| == SIZE
  {
    M.NextKeepsSize(mc, e);
  }

  lemma ServerKeepsSizes(c: Rings)
    requires WellFormed(c) && ServerEnabled(c)
    ensures WellFormed(ServerNext(c))
  {
    match c.server
    case Idle => RingKeepsSize(c.smc, M.GetWait(SERVER));
    case Waited => RingKeepsSize(c.smc, M.Copy(SERVER));
    case Took(_) => RingKeepsSize(c.smc, M.Post(SERVER));
    case Replying(b) => RingKeepsSize(c.clients[Sender(b)].rmc, M.PutWait(SERVER, Reply(c.pid, b)));
    case WithSpace(b) => RingKeepsSize(c.clients[Sender(b)].rmc, M.Copy(SERVER));
    case Put(b) => RingKeepsSize(c.clients[Sender(b)].rmc, M.Post(SERVER));
    case _ =>
  }

  lemma ClientKeepsSizes(c: Rings, p: int)
    requires WellFormed(c) && ClientEnabled(c, p)
    ensures WellFormed(ClientNext(c, p))
  {
    var t := ClientThread(p);
    var rmc := c.clients[p].rmc;
    match c.clients[p].phase
    case Created =>
    case Sending(b) => RingKeepsSize(c.smc, M.PutWait(t, b));
    case HasSpace(b) => RingKeepsSize(c.smc, M.Copy(t));
    case Sent(_) => RingKeepsSize(c.smc, M.Post(t));
    case Awaiting(_) => RingKeepsSize(rmc, M.GetWait(t));
    case HasItem(_) => RingKeepsSize(rmc, M.Copy(t));
    case Taken(b) => RingKeepsSize(rmc, M.Post(t));
  }

  lemma NextKeepsSizes(c: Rings, e: Event)
    requires WellFormed(c) && Enabled(c, e)
    ensures WellFormed(Next(c, e))
  {
    match e
    case ServerStep => ServerKeepsSizes(c);
    case ClientStep(p) => ClientKeepsSizes(c, p);
    case Type(_, _, _) =>
    case Create(_, junk) => M.StartHasInv(SIZE, E.REPLY_CAPACITY, junk);
    case TermStart(k) => RingKeepsSize(c.smc, M.PutWait(TermThread(k), TermBytes()));
    case TermCopy(k) => RingKeepsSize(c.smc, M.Copy(TermThread(k)));
    case TermPost(k) => RingKeepsSize(c.smc, M.Post(TermThread(k)));
    case ServerMutex(e) => RingKeepsSize(c.smc, e);
    case ReplyMutex(p, e) => RingKeepsSize(c.clients[p].rmc, e);
  }

  // ---------------------------------------------------------------- rings for channels

  /** This ring of bytes is that channel of messages. */
  ghost predicate Ring(mc: M.Mc, c: E.Chan) {
    && M.Inv(mc) && mc.elemSize == SIZE && mc.capacity > 0 && M.SIZES % mc.capacity == 0
    && mc.hasSpace == c.space && mc.hasItems == c.items && ShowAll(M.Abs(mc).queue, c.queue)
  }

  /** A step of the ring that is `op` to the users of the channel of bytes. */
  lemma RingSteps(mc: M.Mc, c: E.Chan, e: M.Event)
    requires Ring(mc, c) && M.Enabled(mc, e)
    ensures var n := M.Next(mc, e);
            && M.Inv(n) && n.elemSize == SIZE && n.capacity == mc.capacity
            && Spec.Enabled(M.Abs(mc), M.OpOf(mc, e)) && M.Abs(n) == Spec.Next(M.Abs(mc), M.OpOf(mc, e))
  {
    M.NextKeepsSize(mc, e);
    M.NextKeepsInv(mc, e);
    M.StepRefines(mc, e);
  }

  lemma RingWaitsSpace(mc: M.Mc, c: E.Chan, t: nat, b: M.Bytes)
    requires Ring(mc, c) && M.Enabled(mc, M.PutWait(t, b))
    ensures c.space > 0 && Ring(M.Next(mc, M.PutWait(t, b)), Spec.Next(c, Spec.WaitSpace))
  {
    RingSteps(mc, c, M.PutWait(t, b));
  }

  lemma RingWaitsItems(mc: M.Mc, c: E.Chan, t: nat)
    requires Ring(mc, c) && M.Enabled(mc, M.GetWait(t))
    ensures c.items > 0 && Ring(M.Next(mc, M.GetWait(t)), Spec.Next(c, Spec.WaitItems))
  {
    RingSteps(mc, c, M.GetWait(t));
  }

  lemma RingPuts(mc: M.Mc, c: E.Chan, t: nat, b: M.Bytes, m: E.Msg)
    requires Ring(mc, c) && At(mc, t, M.PutLocked(b)) && Shows(b, m)
    ensures Ring(M.Next(mc, M.Copy(t)), Spec.Next(c, Spec.Enqueue(m)))
  {
    RingSteps(mc, c, M.Copy(t));
  }

  lemma RingGets(mc: M.Mc, c: E.Chan, t: nat)
    requires Ring(mc, c) && GetsLocked(mc, t)
    ensures c.queue != [] && Ring(M.Next(mc, M.Copy(t)), Spec.Next(c, Spec.Dequeue(c.queue[0])))
    ensures Shows(M.Next(mc, M.Copy(t)).pcs[t].msg, c.queue[0])
  {
    RingSteps(mc, c, M.Copy(t));
  }

  lemma RingPostsItems(mc: M.Mc, c: E.Chan, t: nat)
    requires Ring(mc, c) && At(mc, t, M.PutUnlocked)
    ensures Ring(M.Next(mc, M.Post(t)), Spec.Next(c, Spec.PostItems))
  {
    RingSteps(mc, c, M.Post(t));
  }

  lemma RingPostsSpace(mc: M.Mc, c: E.Chan, t: nat)
    requires Ring(mc, c) && GetsUnlocked(mc, t)
    ensures Ring(M.Next(mc, M.Post(t)), Spec.Next(c, Spec.PostSpace))
  {
    RingSteps(mc, c, M.Post(t));
  }

  lemma RingLocks(mc: M.Mc, c: E.Chan, e: M.Event)
    requires Ring(mc, c) && IsMutex(e) && M.Enabled(mc, e)
    ensures Ring(M.Next(mc, e), c)
  {
    RingSteps(mc, c, e);
  }

  // ---------------------------------------------------------------- programs for processes

  ghost predicate ServerShows(v: Server, a: E.Server) {
    match v
    case Idle => a.Idle?
    case Waited => a.Waited?
    case Took(b) => a.Took? && Shows(b, a.msg)
    case Got(b) => a.Got? && Shows(b, a.msg)
    case Replying(b) => a.Replying? && Shows(b, a.msg)
    case WithSpace(b) => a.WithSpace? && Shows(b, a.msg)
    case Put(b) => a.Put? && Shows(b, a.msg)
    case Leaving => a.Leaving?
    case Stopped => a.Stopped?
  }

  /** The buffer holds a request of p with that text. */
  predicate Asks(b: M.Bytes, p: int, text: string) {
    |b| == SIZE && Sender(b) == p && Text(b) == text
  }

  ghost predicate PhaseShows(p: int, f: Phase, a: E.ClientPhase) {
    match f
    case Created => a.Created?
    case Ready => a.Ready?
    case Sending(b) => a.Sending? && Asks(b, p, a.text)
    case HasSpace(b) => a.HasSpace? && Asks(b, p, a.text)
    case Sent(b) => a.Sent? && Asks(b, p, a.text)
    case Awaiting(b) => a.Awaiting? && Asks(b, p, a.text)
    case HasItem(b) => a.HasItem? && Asks(b, p, a.text)
    case Taken(b) => a.Taken? && Shows(b, a.reply)
    case Closed => a.Closed?
  }

  ghost predicate ClientShows(p: int, k: Client, a: E.Client) {
    && PhaseShows(p, k.phase, a.phase) && Ring(k.rmc, a.rmc) && k.sent == a.sent
    && |k.received| == |a.received| && forall i :: 0 <= i < |k.received| ==> k.received[i] == a.received[i].text
  }

  ghost predicate ClientsShow(ks: map<int, Client>, cs: map<int, E.Client>) {
    ks.Keys == cs.Keys && forall p :: p in ks ==> p != 0 && ClientShows(p, ks[p], cs[p])
  }

  ghost predicate TermsShow(terms: map<nat, bool>, s: E.Echo) {
    s.termWaited == Tally(terms, (copied: bool) => !copied) && s.termPut == Tally(terms, (copied: bool) => copied)
  }

  /** The rings and programs of c are the channels and processes of s. */
  ghost predicate Simulates(c: Rings, s: E.Echo) {
    && IsInt(c.pid) && s.pid == c.pid
    && Ring(c.smc, s.smc) && ServerShows(c.server, s.server)
    && ClientsShow(c.clients, s.clients) && TermsShow(c.terms, s)
  }

  lemma OneClientShows(ks: map<int, Client>, cs: map<int, E.Client>, p: int, k: Client, a: E.Client)
    requires ClientsShow(ks, cs) && p != 0 && ClientShows(p, k, a)
    ensures ClientsShow(ks[p := k], cs[p := a])
  {
  }

  // ---------------------------------------------------------------- steps of the server

  lemma StopShows(b: M.Bytes, m: E.Msg)
    requires Shows(b, m)
    ensures IsStop(b) <==> E.IsTermination(m)
  {
  }

  lemma ReplyShows(pid: int, b: M.Bytes, m: E.Msg)
    requires IsInt(pid) && Shows(b, m)
    ensures Shows(Reply(pid, b), m.(sender := pid))
  {
    ReplyKeepsText(b, pid);
  }

  lemma TakingSimulates(c: Rings, s: E.Echo)
    requires Simulates(c, s) && WellFormed(c) && ServerEnabled(c)
    requires c.server.Idle? || c.server.Waited? || c.server.Took?
    ensures E.ServerEnabled(s) && Simulates(ServerNext(c), E.ServerNext(s))
  {
    match c.server
    case Idle => RingWaitsItems(c.smc, s.smc, SERVER);
    case Waited => RingGets(c.smc, s.smc, SERVER);
    case Took(_) => RingPostsSpace(c.smc, s.smc, SERVER);
  }

  lemma DecidingSimulates(c: Rings, s: E.Echo)
    requires Simulates(c, s) && WellFormed(c) && (c.server.Got? || c.server.Leaving?)
    ensures E.ServerEnabled(s) && Simulates(ServerNext(c), E.ServerNext(s))
  {
    if c.server.Got? {
      StopShows(c.server.b, s.server.msg);
      var p := Sender(c.server.b);
      assert p in c.clients ==> ClientShows(p, c.clients[p], s.clients[p]);
    }
  }

  lemma ReplyingSimulates(c: Rings, s: E.Echo)
    requires Simulates(c, s) && WellFormed(c) && ServerEnabled(c)
    requires c.server.Replying? || c.server.WithSpace? || c.server.Put?
    ensures E.ServerEnabled(s) && Simulates(ServerNext(c), E.ServerNext(s))
  {
    var b, m := c.server.b, s.server.msg;
    var p := Sender(b);
    var k, a := c.clients[p], s.clients[p];
    assert ClientShows(p, k, a);
    match c.server {
      case Replying(_) => RingWaitsSpace(k.rmc, a.rmc, SERVER, Reply(c.pid, b));
      case WithSpace(_) =>
        ReplyShows(c.pid, b, m);
        RingPuts(k.rmc, a.rmc, SERVER, Reply(c.pid, b), m.(sender := c.pid));
      case Put(_) => RingPostsItems(k.rmc, a.rmc, SERVER);
    }
    OneClientShows(c.clients, s.clients, p, ServerNext(c).clients[p], E.ServerNext(s).clients[p]);
  }

  lemma ServerSimulates(c: Rings, s: E.Echo)
    requires Simulates(c, s) && WellFormed(c) && ServerEnabled(c)
    ensures E.ServerEnabled(s) && Simulates(ServerNext(c), E.ServerNext(s))
  {
    if c.server.Got? || c.server.Leaving? {
      DecidingSimulates(c, s);
    } else if c.server.Idle? || c.server.Waited? || c.server.Took? {
      TakingSimulates(c, s);
    } else {
      ReplyingSimulates(c, s);
    }
  }

  // ---------------------------------------------------------------- steps of a client

  lemma AskingSimulates(c: Rings, s: E.Echo, p: int)
    requires Simulates(c, s) && WellFormed(c) && ClientEnabled(c, p)
    requires var f := c.clients[p].phase; f.Created? || f.Sending? || f.HasSpace? || f.Sent?
    ensures E.ClientEnabled(s, p) && Simulates(ClientNext(c, p), E.ClientNext(s, p))
  {
    var k, a, t := c.clients[p], s.clients[p], ClientThread(p);
    assert ClientShows(p, k, a);
    match k.phase {
      case Created =>
      case Sending(b) => RingWaitsSpace(c.smc, s.smc, t, b);
      case HasSpace(b) => RingPuts(c.smc, s.smc, t, b, E.Msg(p, a.phase.text, p, |a.sent|));
      case Sent(_) => RingPostsItems(c.smc, s.smc, t);
    }
    OneClientShows(c.clients, s.clients, p, ClientNext(c, p).clients[p], E.ClientNext(s, p).clients[p]);
  }

  lemma HearingSimulates(c: Rings, s: E.Echo, p: int)
    requires Simulates(c, s) && WellFormed(c) && ClientEnabled(c, p)
    requires c.clients[p].phase.Awaiting? || c.clients[p].phase.HasItem? || c.clients[p].phase.Taken?
    ensures E.ClientEnabled(s, p) && Simulates(ClientNext(c, p), E.ClientNext(s, p))
  {
    var k, a, t := c.clients[p], s.clients[p], ClientThread(p);
    assert ClientShows(p, k, a);
    match k.phase {
      case Awaiting(_) => RingWaitsItems(k.rmc, a.rmc, t);
      case HasItem(_) => RingGets(k.rmc, a.rmc, t);
      case Taken(_) => RingPostsSpace(k.rmc, a.rmc, t);
    }
    OneClientShows(c.clients, s.clients, p, ClientNext(c, p).clients[p], E.ClientNext(s, p).clients[p]);
  }

  lemma TypingSimulates(c: Rings, s: E.Echo, p: int, line: string, b: M.Bytes)
    requires Simulates(c, s) && WellFormed(c) && Enabled(c, Type(p, line, b))
    ensures E.Enabled(s, E.Type(p, line)) && Simulates(Next(c, Type(p, line, b)), E.Next(s, E.Type(p, line)))
  {
    assert ClientShows(p, c.clients[p], s.clients[p]);
    var n := Next(c, Type(p, line, b));
    OneClientShows(c.clients, s.clients, p, n.clients[p], E.Next(s, E.Type(p, line)).clients[p]);
  }

  lemma CreatingSimulates(c: Rings, s: E.Echo, p: int, junk: M.Bytes)
    requires Simulates(c, s) && WellFormed(c) && Enabled(c, Create(p, junk))
    ensures E.Enabled(s, E.Create(p)) && Simulates(Next(c, Create(p, junk)), E.Next(s, E.Create(p)))
  {
    M.StartHasInv(SIZE, E.REPLY_CAPACITY, junk);
    OneClientShows(c.clients, s.clients, p, Next(c, Create(p, junk)).clients[p], E.Next(s, E.Create(p)).clients[p]);
  }

  // ---------------------------------------------------------------- steps of a terminator

  lemma TermBytesShow()
    ensures Shows(TermBytes(), E.Termination())
  {
  }

  lemma TermSimulates(c: Rings, s: E.Echo, e: Event, a: E.Event)
    requires Simulates(c, s) && WellFormed(c) && Enabled(c, e)
    requires (e.TermStart? && a == E.TermStart) || (e.TermCopy? && a == E.TermCopy) || (e.TermPost? && a == E.TermPost)
    ensures E.Enabled(s, a) && Simulates(Next(c, e), E.Next(s, a))
  {
    var t := TermThread(e.k);
    var waited, put := (copied: bool) => !copied, (copied: bool) => copied;
    match e {
      case TermStart(k) =>
        RingWaitsSpace(c.smc, s.smc, t, TermBytes());
        TallySet(c.terms, k, false, waited);
        TallySet(c.terms, k, false, put);
      case TermCopy(k) =>
        TermBytesShow();
        RingPuts(c.smc, s.smc, t, TermBytes(), E.Termination());
        TallyPositive(c.terms, k, waited);
        TallySet(c.terms, k, true, waited);
        TallySet(c.terms, k, true, put);
      case TermPost(k) =>
        RingPostsItems(c.smc, s.smc, t);
        TallyPositive(c.terms, k, put);
        TallyRemove(c.terms, k, waited);
        TallyRemove(c.terms, k, put);
    }
  }

  // ---------------------------------------------------------------- every step

  lemma MutexSimulates(c: Rings, s: E.Echo, e: Event)
    requires Simulates(c, s) && WellFormed(c) && Enabled(c, e) && (e.ServerMutex? || e.ReplyMutex?)
    ensures Simulates(Next(c, e), s)
  {
    if e.ServerMutex? {
      RingLocks(c.smc, s.smc, e.e);
    } else {
      var k, a := c.clients[e.p], s.clients[e.p];
      assert ClientShows(e.p, k, a);
      RingLocks(k.rmc, a.rmc, e.e);
      OneClientShows(c.clients, s.clients, e.p, Next(c, e).clients[e.p], a);
      assert s.clients[e.p := a] == s.clients;
    }
  }

  /** What a step is to the protocol: nothing, if it takes or drops a lock. */
  function StepsOf(e: Event): seq<E.Event> {
    match e
    case ServerStep => [E.ServerStep]
    case ClientStep(p) => [E.ClientStep(p)]
    case Type(p, line, _) => [E.Type(p, line)]
    case Create(p, _) => [E.Create(p)]
    case TermStart(_) => [E.TermStart]
    case TermCopy(_) => [E.TermCopy]
    case TermPost(_) => [E.TermPost]
    case ServerMutex(_) => []
    case ReplyMutex(_, _) => []
  }

  lemma ClientSimulates(c: Rings, s: E.Echo, p: int)
    requires Simulates(c, s) && WellFormed(c) && ClientEnabled(c, p)
    ensures E.ClientEnabled(s, p) && Simulates(ClientNext(c, p), E.ClientNext(s, p))
  {
    var f := c.clients[p].phase;
    if f.Awaiting? || f.HasItem? || f.Taken? {
      HearingSimulates(c, s, p);
    } else {
      AskingSimulates(c, s, p);
    }
  }

  /** Every step on the rings is a step of the protocol, or none. */
  lemma StepSimulates(c: Rings, s: E.Echo, e: Event)
    requires Simulates(c, s) && WellFormed(c) && Enabled(c, e)
    ensures StepsOf(e) == [] ==> Simulates(Next(c, e), s)
    ensures StepsOf(e) != [] ==> E.Enabled(s, StepsOf(e)[0]) && Simulates(Next(c, e), E.Next(s, StepsOf(e)[0]))
  {
    match e {
      case ServerStep => ServerSimulates(c, s);
      case ClientStep(p) => ClientSimulates(c, s, p);
      case Type(p, line, b) => TypingSimulates(c, s, p, line, b);
      case Create(p, junk) => CreatingSimulates(c, s, p, junk);
      case ServerMutex(_) => MutexSimulates(c, s, e);
      case ReplyMutex(_, _) => MutexSimulates(c, s, e);
      case _ => TermSimulates(c, s, e, StepsOf(e)[0]);
    }
  }

  // ---------------------------------------------------------------- runs

  ghost predicate IsRun(c: Rings, es: seq<Event>)
    requires WellFormed(c)
    decreases |es|
  {
    es == [] || (Enabled(c, es[0]) && (NextKeepsSizes(c, es[0]); IsRun(Next(c, es[0]), es[1..])))
  }

  ghost function Run(c: Rings, es: seq<Event>): (end: Rings)
    requires WellFormed(c) && IsRun(c, es)
    ensures WellFormed(end)
    decreases |es|
  {
    if es == [] then c else (NextKeepsSizes(c, es[0]); Run(Next(c, es[0]), es[1..]))
  }

  /** A server channel with nothing in it, and nobody else yet. */
  function Start(pid: int, junk: M.Bytes): Rings {
    Rings(pid, M.Start(SIZE, E.SERVER_CAPACITY, junk), Idle, map[], map[])
  }

  lemma StartSimulates(pid: int, junk: M.Bytes)
    requires IsInt(pid) && |junk| == SIZE * E.SERVER_CAPACITY
    ensures WellFormed(Start(pid, junk)) && Simulates(Start(pid, junk), E.Start(pid))
  {
    M.StartHasInv(SIZE, E.SERVER_CAPACITY, junk);
  }

  /** Every run on the rings is a run of the protocol. */
  lemma {:induction false} RunSimulates(c: Rings, s: E.Echo, es: seq<Event>) returns (fs: seq<E.Event>)
    requires Simulates(c, s) && WellFormed(c) && IsRun(c, es)
    ensures E.IsRun(s, fs) && Simulates(Run(c, es), E.Run(s, fs))
    decreases |es|
  {
    if es == [] {
      fs := [];
    } else {
      NextKeepsSizes(c, es[0]);
      StepSimulates(c, s, es[0]);
      if StepsOf(es[0]) == [] {
        fs := RunSimulates(Next(c, es[0]), s, es[1..]);
      } else {
        var rest := RunSimulates(Next(c, es[0]), E.Next(s, StepsOf(es[0])[0]), es[1..]);
        fs := [StepsOf(es[0])[0]] + rest;
        assert fs[1..] == rest;
      }
    }
  }

  lemma TextsAnswered(p: int, k: Client, a: E.Client, pid: int)
    requires ClientShows(p, k, a) && E.Answers(pid, p, a)
    ensures |k.sent| <= |k.received| + 1 && k.received <= k.sent
  {
    forall i | 0 <= i < |k.received| ensures i < |k.sent| && k.received[i] == k.sent[i] {
      assert a.received[i] == E.Msg(pid, a.sent[i], p, i);
    }
  }

  /** For any number of clients and terminators and every interleaving of the steps inside `mc_put` and
      `mc_get`: the texts a client has received are those it has sent, in order, with at most one
      outstanding. */
  lemma {:induction false} RingsAreFaithful(pid: int, junk: M.Bytes, es: seq<Event>)
    requires IsInt(pid) && |junk| == SIZE * E.SERVER_CAPACITY
    requires (StartSimulates(pid, junk); IsRun(Start(pid, junk), es))
    ensures WellFormed(Start(pid, junk))
    ensures var end := Run(Start(pid, junk), es);
            forall p :: p in end.clients ==>
              end.clients[p].received <= end.clients[p].sent && |end.clients[p].sent| <= |end.clients[p].received| + 1
  {
    StartSimulates(pid, junk);
    var fs := RunSimulates(Start(pid, junk), E.Start(pid), es);
    E.EchoIsFaithful(pid, fs);
    var end, s := Run(Start(pid, junk), es), E.Run(E.Start(pid), fs);
    forall p | p in end.clients
      ensures end.clients[p].received <= end.clients[p].sent && |end.clients[p].sent| <= |end.clients[p].received| + 1
    {
      TextsAnswered(p, end.clients[p], s.clients[p], pid);
    }
  }
}
