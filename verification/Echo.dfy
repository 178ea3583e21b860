/** The echo protocol over shared-memory channels (19-ipc/echo-server.c, echo-client.c,
    echo-term.c): one server channel of capacity 8, one reply channel of capacity 1 per client.

    Channels are those of `ChannelSpec`, so a put or a get is three steps (wait, copy, post) and
    processes interleave between them. */
module Echo {
  import Spec = ChannelSpec
  import opened Commons
  import opened Tallies

  const SERVER_CAPACITY: nat := 8
  const REPLY_CAPACITY: nat := 1
  const MSG_MAX_LEN: nat := 256

  /** `origin` and `ticket` are history: whose request this is, or answers, and which one. */
  datatype Msg = Msg(sender: int, text: string, origin: int, ticket: nat)

  type Chan = Spec.Chan<Msg>

  datatype ClientPhase =
    | Created                 // has its reply channel
    | Ready                   // has opened the server channel; at the prompt
    | Sending(text: string)   // about to wait for space
    | HasSpace(text: string)
    | Sent(text: string)      // copied in, not yet posted
    | Awaiting(text: string)  // about to wait for the reply
    | HasItem(text: string)
    | Taken(reply: Msg)       // copied out, not yet posted
    | Closed

  datatype Client = Client(phase: ClientPhase, rmc: Chan, sent: seq<string>, received: seq<Msg>)

  datatype Server =
    | Idle
    | Waited
    | Took(msg: Msg)     // copied out of the server channel, not yet posted
    | Got(msg: Msg)
    | Replying(msg: Msg) // has opened the reply channel
    | WithSpace(msg: Msg)
    | Put(msg: Msg)      // reply copied in, not yet posted
    | Leaving            // has left its loop; its channel is still there
    | Stopped            // has destroyed its channel

  datatype Echo = Echo(
    pid: int,            // the server's
    smc: Chan,
    server: Server,
    clients: map<int, Client>,
    termWaited: nat,     // terminators that have waited for space
    termPut: nat)        // terminators that have copied their message in

  datatype Event =
    | ServerStep
    | ClientStep(p: int)
    | Type(p: int, line: string)  // fgets returns this line; "" is end of file
    | Create(p: int)
    | TermStart
    | TermCopy
    | TermPost

  function Start(pid: int): Echo {
    Echo(pid, Spec.Chan(SERVER_CAPACITY, 0, []), Idle, map[], 0, 0)
  }

  /** The server takes no more messages. */
  predicate Ended(v: Server) { v.Leaving? || v.Stopped? }

  predicate IsTermination(m: Msg) { m.sender == 0 && m.text == "" }

  function Termination(): Msg { Msg(0, "", 0, 0) }

  /** The client drops the last character of the line, and stops if nothing is left. */
  function Strip(line: string): string {
    if line == "" then "" else line[..|line| - 1]
  }

  /** The server can open p's reply channel while p has not destroyed it. */
  predicate CanOpen(s: Echo, p: int) {
    p in s.clients && s.clients[p].phase != Closed
  }

  predicate ServerEnabled(s: Echo) {
    match s.server
    case Idle => s.smc.items > 0
    case Waited => s.smc.queue != []
    case Took(_) => true
    case Got(_) => true
    case Replying(m) => m.sender in s.clients && s.clients[m.sender].rmc.space > 0
    case WithSpace(m) => m.sender in s.clients
    case Put(m) => m.sender in s.clients
    case Leaving => true
    case Stopped => false
  }

  predicate ClientEnabled(s: Echo, p: int) {
    p in s.clients &&
    var c := s.clients[p];
    match c.phase
    case Created => true
    case Sending(_) => s.smc.space > 0
    case HasSpace(_) => true
    case Sent(_) => true
    case Awaiting(_) => c.rmc.items > 0
    case HasItem(_) => c.rmc.queue != []
    case Taken(_) => true
    case _ => false
  }

  predicate Enabled(s: Echo, e: Event) {
    match e
    case ServerStep => ServerEnabled(s)
    case ClientStep(p) => ClientEnabled(s, p)
    case Type(p, line) => p in s.clients && s.clients[p].phase == Ready && |line| < MSG_MAX_LEN
    case Create(p) => p != 0 && p !in s.clients
    case TermStart => s.smc.space > 0
    case TermCopy => s.termWaited > 0
    case TermPost => s.termPut > 0
  }

  function OnReply(s: Echo, p: int, op: Spec.Op<Msg>): map<int, Client>
    requires p in s.clients && Spec.Enabled(s.clients[p].rmc, op)
  {
    s.clients[p := s.clients[p].(rmc := Spec.Next(s.clients[p].rmc, op))]
  }

  function ServerNext(s: Echo): Echo
    requires ServerEnabled(s)
  {
    match s.server
    case Idle => s.(server := Waited, smc := Spec.Next(s.smc, Spec.WaitItems))
    case Waited => s.(server := Took(s.smc.queue[0]), smc := Spec.Next(s.smc, Spec.Dequeue(s.smc.queue[0])))
    case Took(m) => s.(server := Got(m), smc := Spec.Next(s.smc, Spec.PostSpace))
    case Got(m) =>
      if IsTermination(m) then s.(server := Leaving)
      else s.(server := if CanOpen(s, m.sender) then Replying(m) else Idle)
    case Replying(m) => s.(server := WithSpace(m), clients := OnReply(s, m.sender, Spec.WaitSpace))
    case WithSpace(m) =>
      s.(server := Put(m), clients := OnReply(s, m.sender, Spec.Enqueue(m.(sender := s.pid))))
    case Put(m) => s.(server := Idle, clients := OnReply(s, m.sender, Spec.PostItems))
    case Leaving => s.(server := Stopped)
  }

  function ClientNext(s: Echo, p: int): Echo
    requires ClientEnabled(s, p)
  {
    var c := s.clients[p];
    match c.phase
    case Created =>
      s.(clients := s.clients[p := c.(phase := if s.server.Stopped? then Closed else Ready)])
    case Sending(t) =>
      s.(smc := Spec.Next(s.smc, Spec.WaitSpace), clients := s.clients[p := c.(phase := HasSpace(t))])
    case HasSpace(t) =>
      s.(smc := Spec.Next(s.smc, Spec.Enqueue(Msg(p, t, p, |c.sent|))),
         clients := s.clients[p := c.(phase := Sent(t), sent := c.sent + [t])])
    case Sent(t) =>
      s.(smc := Spec.Next(s.smc, Spec.PostItems), clients := s.clients[p := c.(phase := Awaiting(t))])
    case Awaiting(t) =>
      s.(clients := s.clients[p := c.(phase := HasItem(t), rmc := Spec.Next(c.rmc, Spec.WaitItems))])
    case HasItem(_) =>
      s.(clients := s.clients[p := c.(phase := Taken(c.rmc.queue[0]),
                                      rmc := Spec.Next(c.rmc, Spec.Dequeue(c.rmc.queue[0])))])
    case Taken(m) =>
      s.(clients := s.clients[p := c.(phase := Ready, rmc := Spec.Next(c.rmc, Spec.PostSpace),
                                      received := c.received + [m])])
  }

  function Next(s: Echo, e: Event): Echo
    requires Enabled(s, e)
  {
    match e
    case ServerStep => ServerNext(s)
    case ClientStep(p) => ClientNext(s, p)
    case Type(p, line) =>
      var t := Strip(line);
      s.(clients := s.clients[p := s.clients[p].(phase := if t == "" then Closed else Sending(t))])
    case Create(p) =>
      s.(clients := s.clients[p := Client(Created, Spec.Chan(REPLY_CAPACITY, 0, []), [], [])])
    case TermStart => s.(smc := Spec.Next(s.smc, Spec.WaitSpace), termWaited := s.termWaited + 1)
    case TermCopy =>
      s.(smc := Spec.Next(s.smc, Spec.Enqueue(Termination())), termWaited := s.termWaited - 1,
         termPut := s.termPut + 1)
    case TermPost => s.(smc := Spec.Next(s.smc, Spec.PostItems), termPut := s.termPut - 1)
  }

  // ---------------------------------------------------------------- where a request is

  /** The requests of p in the server channel. */
  function From(q: seq<Msg>, p: int): seq<Msg> {
    if q == [] then [] else (if q[0].sender == p then [q[0]] else []) + From(q[1..], p)
  }

  lemma {:induction false} FromAppend(q: seq<Msg>, m: Msg, p: int)
    ensures From(q + [m], p) == From(q, p) + if m.sender == p then [m] else []
  {
    if q == [] {
      assert (q + [m])[1..] == [];
    } else {
      FromAppend(q[1..], m, p);
      assert (q + [m])[1..] == q[1..] + [m];
    }
  }

  /** The request of p the server is holding and has not yet answered. */
  function Carried(v: Server, p: int): seq<Msg> {
    if (v.Took? || v.Got? || v.Replying? || v.WithSpace?) && v.msg.sender == p then [v.msg] else []
  }

  /** The unanswered requests of p. */
  function Token(s: Echo, p: int): seq<Msg> {
    From(s.smc.queue, p) + Carried(s.server, p)
  }

  predicate HoldsSpace(v: Server, p: int) { v.WithSpace? && v.msg.sender == p }

  predicate Putting(v: Server, p: int) { v.Put? && v.msg.sender == p }

  ghost predicate Answers(pid: int, p: int, c: Client) {
    && |c.received| <= |c.sent| <= |c.received| + 1
    && (forall i :: 0 <= i < |c.received| ==> c.received[i] == Msg(pid, c.sent[i], p, i))
    && (forall i :: 0 <= i < |c.sent| ==> c.sent[i] != "")
  }

  /** A client has at most one request outstanding, and that request is in exactly one place: the
      server channel, the server's hands, the reply channel, or the client's own hands. */
  ghost predicate ClientInv(pid: int, p: int, c: Client, token: seq<Msg>, v: Server) {
    var k := |c.received|;
    var waiting := |c.sent| == k + 1;
    && Answers(pid, p, c)
    && match c.phase
       case Sent(t) => waiting && c.sent[k] == t && Outstanding(pid, p, c, token, v)
       case Awaiting(t) => waiting && c.sent[k] == t && Outstanding(pid, p, c, token, v)
       case HasItem(t) =>
         waiting && token == [] && !Putting(v, p) && c.rmc == Spec.Chan(0, 0, [Msg(pid, c.sent[k], p, k)])
       case Taken(m) =>
         waiting && token == [] && !Putting(v, p) && c.rmc == Spec.Chan(0, 0, []) && m == Msg(pid, c.sent[k], p, k)
       case Sending(t) => t != "" && Resting(p, c, token, v)
       case HasSpace(t) => t != "" && Resting(p, c, token, v)
       case _ => Resting(p, c, token, v)
  }

  ghost predicate Resting(p: int, c: Client, token: seq<Msg>, v: Server) {
    |c.sent| == |c.received| && token == [] && !Putting(v, p) && c.rmc == Spec.Chan(REPLY_CAPACITY, 0, [])
  }

  ghost predicate Outstanding(pid: int, p: int, c: Client, token: seq<Msg>, v: Server)
    requires |c.sent| == |c.received| + 1
  {
    var k := |c.received|;
    || (token == [Msg(p, c.sent[k], p, k)] && !Putting(v, p) &&
        c.rmc == Spec.Chan(if HoldsSpace(v, p) then 0 else 1, 0, []))
    || (token == [] && c.rmc == Spec.Chan(0, if Putting(v, p) then 0 else 1, [Msg(pid, c.sent[k], p, k)]))
  }

  ghost predicate ClientsInv(s: Echo) {
    forall p :: p in s.clients ==> p != 0 && ClientInv(s.pid, p, s.clients[p], Token(s, p), s.server)
  }

  ghost predicate Known(s: Echo, m: Msg) {
    m == Termination() || m.sender in s.clients
  }

  /** Only clients and terminators are heard of. */
  ghost predicate SendersInv(s: Echo) {
    && (forall i :: 0 <= i < |s.smc.queue| ==> Known(s, s.smc.queue[i]))
    && (s.server.Took? || s.server.Got? ==> Known(s, s.server.msg))
    && (s.server.Replying? || s.server.WithSpace? || s.server.Put? ==> s.server.msg.sender in s.clients)
  }

  // ---------------------------------------------------------------- the server channel's semaphores

  /** Clients between their wait for space and their copy, and between their copy and their post. */
  ghost function Holding(cs: map<int, Client>): nat {
    Tally(cs, (c: Client) => c.phase.HasSpace?)
  }

  ghost function Posting(cs: map<int, Client>): nat {
    Tally(cs, (c: Client) => c.phase.Sent?)
  }

  ghost predicate CountInv(s: Echo) {
    && s.smc.space + s.smc.items + Holding(s.clients) + Posting(s.clients) + s.termWaited + s.termPut +
       One(s.server.Waited? || s.server.Took?) == SERVER_CAPACITY
    && |s.smc.queue| == s.smc.items + Posting(s.clients) + s.termPut + One(s.server.Waited?)
  }

  lemma CountsMove(cs: map<int, Client>, p: int, c: Client)
    ensures Holding(cs[p := c]) == Holding(cs) - One(p in cs && cs[p].phase.HasSpace?) + One(c.phase.HasSpace?)
    ensures Posting(cs[p := c]) == Posting(cs) - One(p in cs && cs[p].phase.Sent?) + One(c.phase.Sent?)
  {
    TallySet(cs, p, c, (x: Client) => x.phase.HasSpace?);
    TallySet(cs, p, c, (x: Client) => x.phase.Sent?);
  }

  lemma ServerKeepsCounts(s: Echo)
    requires CountInv(s) && ServerEnabled(s)
    ensures CountInv(ServerNext(s))
  {
    if s.server.Replying? || s.server.WithSpace? || s.server.Put? {
      CountsMove(s.clients, s.server.msg.sender, ServerNext(s).clients[s.server.msg.sender]);
    }
  }

  lemma ClientKeepsCounts(s: Echo, p: int)
    requires CountInv(s) && ClientEnabled(s, p)
    ensures CountInv(ClientNext(s, p))
  {
    CountsMove(s.clients, p, ClientNext(s, p).clients[p]);
  }

  lemma NextKeepsCounts(s: Echo, e: Event)
    requires CountInv(s) && Enabled(s, e)
    ensures CountInv(Next(s, e))
  {
    match e
    case ClientStep(p) => ClientKeepsCounts(s, p);
    case ServerStep => ServerKeepsCounts(s);
    case Type(p, _) => CountsMove(s.clients, p, Next(s, e).clients[p]);
    case Create(p) => CountsMove(s.clients, p, Next(s, e).clients[p]);
    case _ =>
  }

  // ---------------------------------------------------------------- every step keeps the invariant

  ghost predicate Inv(s: Echo) {
    CountInv(s) && SendersInv(s) && ClientsInv(s)
  }

  /** A client is unaffected by a step that does not touch its record, its requests or its reply. */
  lemma Untouched(s: Echo, n: Echo, p: int)
    requires p in s.clients && p in n.clients && s.clients[p] == n.clients[p] && s.pid == n.pid
    requires ClientInv(s.pid, p, s.clients[p], Token(s, p), s.server)
    requires Token(n, p) == Token(s, p)
    requires HoldsSpace(n.server, p) == HoldsSpace(s.server, p) && Putting(n.server, p) == Putting(s.server, p)
    ensures ClientInv(n.pid, p, n.clients[p], Token(n, p), n.server)
  {
  }

  lemma HeadTaken(q: seq<Msg>, p: int)
    requires q != []
    ensures From(q, p) == (if q[0].sender == p then [q[0]] else []) + From(q[1..], p)
  {
  }

  /** The server's message, if from a client, is that client's only unanswered request. */
  lemma CarriedIsToken(s: Echo, p: int)
    requires ClientsInv(s) && p in s.clients && Carried(s.server, p) != []
    ensures From(s.smc.queue, p) == [] && Token(s, p) == [s.server.msg]
    ensures s.clients[p].phase.Sent? || s.clients[p].phase.Awaiting?
    ensures Outstanding(s.pid, p, s.clients[p], Token(s, p), s.server)
  {
    var c := s.clients[p];
    assert ClientInv(s.pid, p, c, Token(s, p), s.server);
    assert |Token(s, p)| == |From(s.smc.queue, p)| + 1;
  }

  /** The server's wait for space in a reply channel never blocks, and the channel is there. */
  lemma ServerPutNeverBlocks(s: Echo)
    requires Inv(s)
    ensures s.server.Replying? ==> ServerEnabled(s)
    ensures s.server.Got? && !IsTermination(s.server.msg) ==> CanOpen(s, s.server.msg.sender)
  {
    if s.server.Replying? || (s.server.Got? && !IsTermination(s.server.msg)) {
      CarriedIsToken(s, s.server.msg.sender);
    }
  }

  ghost predicate Fine(s: Echo, p: int) {
    p in s.clients && ClientInv(s.pid, p, s.clients[p], Token(s, p), s.server)
  }

  /** Taking a request off the channel moves it from the queue to the server's hands. */
  lemma TakeKeepsToken(s: Echo, p: int)
    requires s.server.Waited? && s.smc.queue != [] && |Token(s, p)| <= 1
    ensures Token(ServerNext(s), p) == Token(s, p)
  {
    var rest := From(s.smc.queue[1..], p);
    HeadTaken(s.smc.queue, p);
    if s.smc.queue[0].sender == p {
      assert Token(s, p) == [s.smc.queue[0]] + rest;
      assert rest == [];
    }
  }

  lemma AtMostOneToken(s: Echo, p: int)
    requires Fine(s, p)
    ensures |Token(s, p)| <= 1
  {
  }

  /** Server steps that do not touch a reply channel, as one client sees them. */
  lemma OwnStepsKeepToken(s: Echo, p: int)
    requires ServerEnabled(s) && |Token(s, p)| <= 1
    requires !(s.server.Got? || s.server.Replying? || s.server.WithSpace? || s.server.Put?)
    ensures Token(ServerNext(s), p) == Token(s, p) && ServerNext(s).clients == s.clients && ServerNext(s).pid == s.pid
    ensures !HoldsSpace(s.server, p) && !Putting(s.server, p)
    ensures !HoldsSpace(ServerNext(s).server, p) && !Putting(ServerNext(s).server, p)
  {
    if s.server.Waited? {
      TakeKeepsToken(s, p);
    }
  }

  lemma OwnStepsKeepClient(s: Echo, p: int)
    requires Fine(s, p) && ServerEnabled(s)
    requires !(s.server.Got? || s.server.Replying? || s.server.WithSpace? || s.server.Put?)
    ensures Fine(ServerNext(s), p)
  {
    AtMostOneToken(s, p);
    OwnStepsKeepToken(s, p);
    Untouched(s, ServerNext(s), p);
  }

  lemma DecidingKeepsClient(s: Echo, p: int)
    requires Inv(s) && p in s.clients && s.server.Got?
    ensures Fine(ServerNext(s), p)
  {
    ServerPutNeverBlocks(s);
    Untouched(s, ServerNext(s), p);
  }

  lemma ReplyingKeepsClient(s: Echo, p: int)
    requires ClientsInv(s) && p in s.clients && ServerEnabled(s)
    requires s.server.Replying? || s.server.WithSpace? || s.server.Put?
    ensures Fine(ServerNext(s), p)
  {
    if s.server.msg.sender != p {
      Untouched(s, ServerNext(s), p);
    } else if !s.server.Put? {
      CarriedIsToken(s, p);
    }
  }

  lemma ServerKeepsClients(s: Echo)
    requires Inv(s) && ServerEnabled(s)
    ensures ClientsInv(ServerNext(s))
  {
    forall p | p in s.clients ensures Fine(ServerNext(s), p) {
      if s.server.Got? {
        DecidingKeepsClient(s, p);
      } else if s.server.Replying? || s.server.WithSpace? || s.server.Put? {
        ReplyingKeepsClient(s, p);
      } else {
        OwnStepsKeepClient(s, p);
      }
    }
  }

  lemma ServerKeepsSenders(s: Echo)
    requires SendersInv(s) && ServerEnabled(s)
    ensures SendersInv(ServerNext(s))
  {
  }

  lemma ClientKeepsSenders(s: Echo, p: int)
    requires SendersInv(s) && ClientEnabled(s, p)
    ensures SendersInv(ClientNext(s, p))
  {
  }

  lemma ClientKeepsToken(s: Echo, p: int, q: int)
    requires ClientEnabled(s, p)
    ensures var c := s.clients[p];
            Token(ClientNext(s, p), q) ==
            if c.phase.HasSpace? && p == q then
              From(s.smc.queue, p) + [Msg(p, c.phase.text, p, |c.sent|)] + Carried(s.server, p)
            else Token(s, q)
  {
    var c := s.clients[p];
    if c.phase.HasSpace? {
      FromAppend(s.smc.queue, Msg(p, c.phase.text, p, |c.sent|), q);
    }
  }

  predicate Asking(c: Client) { c.phase.Created? || c.phase.Sending? || c.phase.HasSpace? || c.phase.Sent? }

  lemma AskingKeepsSelf(s: Echo, p: int)
    requires ClientEnabled(s, p) && Asking(s.clients[p]) && Fine(s, p)
    ensures Fine(ClientNext(s, p), p)
  {
    ClientKeepsToken(s, p, p);
  }

  lemma HearingKeepsSelf(s: Echo, p: int)
    requires ClientEnabled(s, p) && !Asking(s.clients[p]) && Fine(s, p)
    ensures Fine(ClientNext(s, p), p)
  {
    ClientKeepsToken(s, p, p);
  }

  lemma ClientKeepsSelf(s: Echo, p: int)
    requires ClientsInv(s) && ClientEnabled(s, p)
    ensures Fine(ClientNext(s, p), p)
  {
    assert Fine(s, p);
    if Asking(s.clients[p]) {
      AskingKeepsSelf(s, p);
    } else {
      HearingKeepsSelf(s, p);
    }
  }

  lemma ClientKeepsClients(s: Echo, p: int)
    requires ClientsInv(s) && ClientEnabled(s, p)
    ensures ClientsInv(ClientNext(s, p))
  {
    forall q | q in s.clients ensures Fine(ClientNext(s, p), q) {
      if q == p {
        ClientKeepsSelf(s, p);
      } else {
        ClientKeepsToken(s, p, q);
        Untouched(s, ClientNext(s, p), q);
      }
    }
  }

  lemma OthersKeepClients(s: Echo, e: Event)
    requires SendersInv(s) && ClientsInv(s) && Enabled(s, e) && !e.ServerStep? && !e.ClientStep?
    ensures SendersInv(Next(s, e)) && ClientsInv(Next(s, e))
  {
    var n := Next(s, e);
    forall q | q in n.clients ensures q != 0 && Fine(n, q) {
      if e.TermCopy? {
        FromAppend(s.smc.queue, Termination(), q);
      }
      if e.Create? && e.p == q {
        NothingFromStrangers(s, q);
      } else if !(e.Type? && e.p == q) {
        Untouched(s, n, q);
      }
    }
  }

  lemma {:induction false} NoneFrom(q: seq<Msg>, p: int)
    requires forall i :: 0 <= i < |q| ==> q[i].sender != p
    ensures From(q, p) == []
  {
    if q != [] {
      NoneFrom(q[1..], p);
    }
  }

  lemma NothingFromStrangers(s: Echo, p: int)
    requires SendersInv(s) && p !in s.clients && p != 0
    ensures Token(s, p) == [] && !Putting(s.server, p)
  {
    NoneFrom(s.smc.queue, p);
  }

  lemma NextKeepsInv(s: Echo, e: Event)
    requires Inv(s) && Enabled(s, e)
    ensures Inv(Next(s, e))
  {
    NextKeepsCounts(s, e);
    match e
    case ServerStep =>
      ServerKeepsClients(s);
      ServerKeepsSenders(s);
    case ClientStep(p) =>
      ClientKeepsClients(s, p);
      ClientKeepsSenders(s, p);
    case _ => OthersKeepClients(s, e);
  }

  // ---------------------------------------------------------------- runs

  ghost predicate IsRun(s: Echo, es: seq<Event>)
    decreases |es|
  {
    es == [] || (Enabled(s, es[0]) && IsRun(Next(s, es[0]), es[1..]))
  }

  ghost function Run(s: Echo, es: seq<Event>): Echo
    requires IsRun(s, es)
    decreases |es|
  {
    if es == [] then s else Run(Next(s, es[0]), es[1..])
  }

  lemma {:induction false} RunKeepsInv(s: Echo, es: seq<Event>)
    requires Inv(s) && IsRun(s, es)
    ensures Inv(Run(s, es)) && Run(s, es).pid == s.pid
    decreases |es|
  {
    if es != [] {
      NextKeepsInv(s, es[0]);
      RunKeepsInv(Next(s, es[0]), es[1..]);
    }
  }

  lemma {:induction false} RunOneMore(s: Echo, es: seq<Event>, e: Event)
    requires IsRun(s, es) && Enabled(Run(s, es), e)
    ensures IsRun(s, es + [e]) && Run(s, es + [e]) == Next(Run(s, es), e)
    decreases |es|
  {
    if es == [] {
      assert [e][1..] == [];
      assert es + [e] == [e];
    } else {
      RunOneMore(Next(s, es[0]), es[1..], e);
      assert (es + [e])[1..] == es[1..] + [e];
    }
  }

  lemma StartHasInv(pid: int)
    ensures Inv(Start(pid))
  {
    assert Holding(map[]) == 0 && Posting(map[]) == 0;
  }

  /** Over any run, with any number of clients: the i-th reply a client receives is the server's
      answer to that client's own i-th request, with its text; at most one request of a client is
      outstanding; and the server's put into a reply channel never blocks. */
  lemma {:induction false} EchoIsFaithful(pid: int, es: seq<Event>)
    requires IsRun(Start(pid), es)
    ensures var s := Run(Start(pid), es);
            && (forall p :: p in s.clients ==> Answers(pid, p, s.clients[p]) && |Token(s, p)| <= 1)
            && (s.server.Replying? ==> ServerEnabled(s))
            && (s.server.Got? && !IsTermination(s.server.msg) ==> CanOpen(s, s.server.msg.sender))
  {
    StartHasInv(pid);
    RunKeepsInv(Start(pid), es);
    var s := Run(Start(pid), es);
    ServerPutNeverBlocks(s);
    forall p | p in s.clients ensures Answers(pid, p, s.clients[p]) && |Token(s, p)| <= 1 {
      assert Fine(s, p);
    }
  }

  // ---------------------------------------------------------------- what was typed

  /** A line loses its last character, whatever it is; an empty line, or none, ends the client. */
  lemma TypingSends(s: Echo, p: int, t: string, last: char)
    ensures Enabled(s, Type(p, t + [last])) ==>
              Next(s, Type(p, t + [last])).clients[p].phase == if t == "" then Closed else Sending(t)
    ensures Enabled(s, Type(p, "")) ==> Next(s, Type(p, "")).clients[p].phase == Closed
  {
    assert (t + [last])[..|t|] == t;
  }

  /** The lines typed at p, each without its last character; those of which nothing is left are not sent. */
  function Typed(es: seq<Event>, p: int): seq<string> {
    if es == [] then []
    else (if es[0].Type? && es[0].p == p && |es[0].line| > 1 then [es[0].line[..|es[0].line| - 1]] else []) +
         Typed(es[1..], p)
  }

  /** The texts of p's requests, the one it is about to copy in included. */
  function Requested(s: Echo, p: int): seq<string> {
    if p !in s.clients then []
    else s.clients[p].sent +
         if s.clients[p].phase.Sending? || s.clients[p].phase.HasSpace? then [s.clients[p].phase.text] else []
  }

  lemma StepAsksTyped(s: Echo, e: Event, p: int)
    requires Enabled(s, e)
    ensures Requested(Next(s, e), p) == Requested(s, p) + Typed([e], p)
  {
    assert Typed([e], p) == if e.Type? && e.p == p && |e.line| > 1 then [e.line[..|e.line| - 1]] else [];
  }

  lemma {:induction false} AsksTyped(s: Echo, es: seq<Event>, p: int)
    requires IsRun(s, es)
    ensures Requested(Run(s, es), p) == Requested(s, p) + Typed(es, p)
    decreases |es|
  {
    if es != [] {
      StepAsksTyped(s, es[0], p);
      AsksTyped(Next(s, es[0]), es[1..], p);
      assert Typed([es[0]], p) + Typed(es[1..], p) == Typed(es, p);
    }
  }

  /** Over any run, the texts of the replies a client has received are those of the lines typed at it,
      each without its last character, in order. */
  lemma {:induction false} RepliesAreTyped(pid: int, es: seq<Event>, p: int)
    requires IsRun(Start(pid), es) && p in Run(Start(pid), es).clients
    ensures var received := Run(Start(pid), es).clients[p].received;
            |received| <= |Typed(es, p)| && forall i :: 0 <= i < |received| ==> received[i].text == Typed(es, p)[i]
  {
    EchoIsFaithful(pid, es);
    AsksTyped(Start(pid), es, p);
    var c := Run(Start(pid), es).clients[p];
    assert Typed(es, p) == Requested(Run(Start(pid), es), p);
    forall i | 0 <= i < |c.received| ensures c.received[i].text == Typed(es, p)[i] {
      assert c.received[i] == Msg(pid, c.sent[i], p, i);
    }
  }

  // ---------------------------------------------------------------- progress

  /** A step of the protocol itself: not a user typing, a client arriving or a terminator starting. */
  predicate Internal(e: Event) {
    e.ServerStep? || e.ClientStep? || e.TermCopy? || e.TermPost?
  }

  predicate InExchange(c: Client) {
    !(c.phase.Created? || c.phase.Ready? || c.phase.Closed?)
  }

  /** Copies and posts still to come from those who already have their space. */
  ghost function Pending(s: Echo): nat {
    2 * (s.termWaited + Holding(s.clients)) + s.termPut + Posting(s.clients)
  }

  /** An idle server with nothing announced, but something in its channel or all space taken, has a
      copy or a post coming. */
  lemma PendingMoves(s: Echo) returns (e: Event)
    requires Inv(s) && s.server.Idle? && s.smc.items == 0 && (s.smc.queue != [] || s.smc.space == 0)
    ensures Internal(e) && !e.ServerStep? && Enabled(s, e) && Pending(Next(s, e)) < Pending(s)
  {
    if s.termPut > 0 {
      e := TermPost;
    } else if s.termWaited > 0 {
      e := TermCopy;
    } else if Posting(s.clients) > 0 {
      var p := TallyWitness(s.clients, (c: Client) => c.phase.Sent?);
      e := ClientStep(p);
      CountsMove(s.clients, p, Next(s, e).clients[p]);
    } else {
      var p := TallyWitness(s.clients, (c: Client) => c.phase.HasSpace?);
      e := ClientStep(p);
      CountsMove(s.clients, p, Next(s, e).clients[p]);
    }
  }

  /** While any client is in an exchange and the server has not stopped, some process can step. */
  lemma NeverStuck(s: Echo, p: int)
    requires Inv(s) && !s.server.Stopped? && p in s.clients && InExchange(s.clients[p])
    ensures exists e :: Internal(e) && Enabled(s, e)
  {
    ServerPutNeverBlocks(s);
    assert Fine(s, p);
    if ServerEnabled(s) {
      assert Internal(ServerStep) && Enabled(s, ServerStep);
    } else if ClientEnabled(s, p) {
      assert Internal(ClientStep(p)) && Enabled(s, ClientStep(p));
    } else {
      assert s.server.Idle?;
      if s.clients[p].phase.Awaiting? {
        assert Token(s, p) != [];
        assert s.smc.queue != [];
      }
      var e := PendingMoves(s);
    }
  }

  // ---------------------------------------------------------------- how soon a request is answered

  /** Messages from the head of the queue up to and including the first of p; 0 if there is none. */
  function Upto(q: seq<Msg>, p: int): nat {
    if q == [] then 0
    else if q[0].sender == p then 1
    else
      var n := Upto(q[1..], p);
      if n == 0 then 0 else n + 1
  }

  lemma {:induction false} UptoAppend(q: seq<Msg>, m: Msg, p: int)
    requires Upto(q, p) > 0 || m.sender != p
    ensures Upto(q + [m], p) == Upto(q, p)
  {
    if q == [] {
      assert (q + [m])[1..] == [];
    } else {
      assert (q + [m])[1..] == q[1..] + [m];
      if q[0].sender != p {
        UptoAppend(q[1..], m, p);
      }
    }
  }

  lemma {:induction false} UptoFrom(q: seq<Msg>, p: int)
    ensures Upto(q, p) > 0 <==> From(q, p) != []
  {
    if q != [] {
      UptoFrom(q[1..], p);
    }
  }

  /** Server steps still needed for the message in hand, relative to starting the next one. */
  function Lag(v: Server): int {
    match v
    case Idle => -1
    case Waited => -2
    case Took(_) => 4
    case Got(_) => 3
    case Replying(_) => 2
    case WithSpace(_) => 1
    case Put(_) => 0
    case Leaving => 0
    case Stopped => 0
  }

  /** Server steps until the request of p is answered: seven per message ahead of it. */
  function Distance(s: Echo, p: int): int {
    7 * Upto(s.smc.queue, p) + Lag(s.server)
  }

  lemma DistancePositive(s: Echo, p: int)
    requires Token(s, p) != []
    ensures Distance(s, p) > 0
  {
    UptoFrom(s.smc.queue, p);
  }

  lemma ServerBringsNearer(s: Echo, p: int)
    requires Inv(s) && ServerEnabled(s) && p in s.clients && Token(s, p) != []
    requires !Ended(ServerNext(s).server)
    ensures Token(ServerNext(s), p) != [] ==> Distance(ServerNext(s), p) == Distance(s, p) - 1
    ensures Token(ServerNext(s), p) == [] ==>
              Replies(ServerNext(s).clients[p]) == Replies(s.clients[p]) + 1
  {
    ServerPutNeverBlocks(s);
    assert Fine(s, p);
    if s.server.Waited? {
      TakeKeepsToken(s, p);
      HeadTaken(s.smc.queue, p);
      UptoFrom(s.smc.queue[1..], p);
      UptoFrom(s.smc.queue, p);
    }
  }

  lemma OthersKeepDistance(s: Echo, p: int, e: Event)
    requires Inv(s) && Enabled(s, e) && !e.ServerStep? && p in s.clients && Token(s, p) != []
    ensures Token(Next(s, e), p) == Token(s, p) && Distance(Next(s, e), p) == Distance(s, p)
  {
    assert Fine(s, p);
    if e.ClientStep? {
      ClientKeepsToken(s, e.p, p);
      var c := s.clients[e.p];
      if c.phase.HasSpace? {
        UptoAppend(s.smc.queue, Msg(e.p, c.phase.text, e.p, |c.sent|), p);
      }
    } else if e.TermCopy? {
      FromAppend(s.smc.queue, Termination(), p);
      UptoAppend(s.smc.queue, Termination(), p);
    }
  }

  /** Replies put into the client's channel so far. */
  function Replies(c: Client): nat {
    |c.received| + |c.rmc.queue| + One(c.phase.Taken?)
  }

  lemma {:induction false} RepliesStay(s: Echo, p: int, es: seq<Event>)
    requires IsRun(s, es) && p in s.clients
    ensures p in Run(s, es).clients && Replies(Run(s, es).clients[p]) >= Replies(s.clients[p])
    decreases |es|
  {
    if es != [] {
      RepliesStay(Next(s, es[0]), p, es[1..]);
    }
  }

  function ServerSteps(es: seq<Event>): nat {
    if es == [] then 0 else One(es[0].ServerStep?) + ServerSteps(es[1..])
  }
}
