/** The programs of the echo service (19-ipc/echo-server.c, echo-client.c) on the channels of
    `MemChannels`: byte buffers, whole calls of `mc_put` and `mc_get`, and the layout of a message.
    What a program does between two waits is a run of the protocol of `Echo`, of its own steps only;
    how such steps interleave with those of others is proved there. */
module EchoPrograms {
  import opened Echo
  import P = Echo
  import opened MemChannels
  import opened Messages
  import Spec = ChannelSpec

  // ---------------------------------------------------------------- bytes for messages

  /** These bytes are that message. */
  ghost predicate Shows(b: Bytes, m: Msg) {
    |b| == SIZE && Sender(b) == m.sender && Text(b) == m.text
  }

  ghost predicate ShowAll(bs: seq<Bytes>, ms: seq<Msg>) {
    |bs| == |ms| && forall i :: 0 <= i < |bs| ==> Shows(bs[i], ms[i])
  }

  /** This channel of bytes, with nobody inside, is that channel of messages. */
  ghost predicate Holds(mc: Mc, c: P.Chan) {
    && MemChannels.Inv(mc) && Alone(mc) && mc.elemSize == SIZE && SIZES % mc.capacity == 0
    && mc.hasSpace == c.space && mc.hasItems == c.items && ShowAll(Abs(mc).queue, c.queue)
  }

  lemma PutHolds(mc: Mc, c: P.Chan, b: Bytes, m: Msg)
    requires Holds(mc, c) && c.space > 0 && Shows(b, m)
    ensures Holds(WholePut(mc, b), Spec.Chan(c.space - 1, c.items + 1, c.queue + [m]))
  {
    WholePutQueues(mc, b);
  }

  lemma GetHolds(mc: Mc, c: P.Chan)
    requires Holds(mc, c) && c.items > 0
    ensures c.queue != [] && Holds(WholeGet(mc), Spec.Chan(c.space + 1, c.items - 1, c.queue[1..]))
    ensures WholeGet(mc).gets == mc.gets + [Abs(mc).queue[0]] && Shows(Abs(mc).queue[0], c.queue[0])
  {
    WholeGetDequeues(mc);
  }

  // ---------------------------------------------------------------- what one turn is to the protocol

  predicate CanReply(s: Echo) {
    s.smc.queue != [] &&
    (CanOpen(s, s.smc.queue[0].sender) ==> s.clients[s.smc.queue[0].sender].rmc.space > 0)
  }

  /** The server has taken a message off its channel and, if it is a request, put the reply. */
  function Answered(s: Echo): Echo
    requires CanReply(s) && s.smc.items > 0
  {
    var m := s.smc.queue[0];
    var taken := s.(smc := Spec.Chan(s.smc.space + 1, s.smc.items - 1, s.smc.queue[1..]));
    if IsTermination(m) then taken.(server := Leaving)
    else if CanOpen(s, m.sender) then
      var c := s.clients[m.sender];
      taken.(clients := s.clients[m.sender := c.(rmc := Replied(c.rmc, m.(sender := s.pid)))])
    else taken
  }

  function Replied(c: P.Chan, m: Msg): P.Chan
    requires c.space > 0
  {
    Spec.Chan(c.space - 1, c.items + 1, c.queue + [m])
  }

  ghost predicate ByServer(es: seq<P.Event>) {
    forall i :: 0 <= i < |es| ==> es[i] == ServerStep
  }

  lemma OneMoreStep(s: Echo, es: seq<P.Event>, n: Echo) returns (longer: seq<P.Event>)
    requires P.IsRun(s, es) && ByServer(es) && ServerEnabled(P.Run(s, es)) && n == ServerNext(P.Run(s, es))
    ensures P.IsRun(s, longer) && ByServer(longer) && P.Run(s, longer) == n
  {
    RunOneMore(s, es, ServerStep);
    longer := es + [ServerStep];
  }

  lemma TakeRuns(s: Echo) returns (es: seq<P.Event>)
    requires s.server.Idle? && CanReply(s) && s.smc.items > 0
    ensures P.IsRun(s, es) && ByServer(es)
    ensures P.Run(s, es) ==
            s.(server := Got(s.smc.queue[0]), smc := Spec.Chan(s.smc.space + 1, s.smc.items - 1, s.smc.queue[1..]))
  {
    es := OneMoreStep(s, [], ServerNext(s));
    es := OneMoreStep(s, es, ServerNext(ServerNext(s)));
    es := OneMoreStep(s, es, ServerNext(ServerNext(ServerNext(s))));
  }

  lemma AnsweredRuns(s: Echo) returns (es: seq<P.Event>)
    requires s.server.Idle? && CanReply(s) && s.smc.items > 0
    ensures P.IsRun(s, es) && ByServer(es) && P.Run(s, es) == Answered(s)
  {
    es := TakeRuns(s);
    var m := s.smc.queue[0];
    var s1 := P.Run(s, es);
    var s2 := ServerNext(s1);
    es := OneMoreStep(s, es, s2);
    if !IsTermination(m) && CanOpen(s, m.sender) {
      var c := s.clients[m.sender];
      var s3 := ServerNext(s2);
      var s4 := ServerNext(s3);
      es := OneMoreStep(s, es, s3);
      es := OneMoreStep(s, es, s4);
      es := OneMoreStep(s, es, ServerNext(s4));
      assert P.Run(s, es).clients == Answered(s).clients;
    }
  }

  // ---------------------------------------------------------------- the server

  class EchoServer {
    const pid: int
    const smc: MemChannel
    const msg: array<byte>

    constructor (pid: int)
      requires IsInt(pid)
      ensures this.pid == pid && fresh(smc) && fresh(smc.items) && fresh(msg)
      ensures msg.Length == SIZE && msg != smc.items && Holds(smc.View(), P.Start(pid).smc)
      ensures smc.elemSize == 260 && smc.capacity == 8
    {
      this.pid := pid;
      smc := new MemChannel(SIZE, SERVER_CAPACITY);
      msg := new byte[SIZE];
    }

    /** Buffers and channels are different memory. */
    ghost predicate Apart(rmcs: map<int, MemChannel>) {
      && msg.Length == SIZE && msg != smc.items
      && (forall p :: p in rmcs ==> rmcs[p] != smc && rmcs[p].items != smc.items && rmcs[p].items != msg)
      && (forall p, q :: p in rmcs && q in rmcs && p != q ==> rmcs[p] != rmcs[q] && rmcs[p].items != rmcs[q].items)
    }

    /** `msg.sender = pid`. */
    method SetSender()
      requires msg.Length == SIZE && IsInt(pid)
      modifies msg
      ensures msg[..] == IntBytes(pid) + old(msg[SENDER_SIZE..])
    {
      var b := IntBytes(pid);
      msg[0], msg[1], msg[2], msg[3] := b[0], b[1], b[2], b[3];
    }

    /** The reply: the message with the server as its sender, put into the client's channel. */
    method Reply(rmc: MemChannel, ghost c: P.Chan, ghost m: Msg)
      requires IsInt(pid) && msg.Length == SIZE && msg != rmc.items && Shows(msg[..], m)
      requires Holds(rmc.View(), c) && c.space > 0
      modifies msg, rmc, rmc.items
      ensures Holds(rmc.View(), Replied(c, m.(sender := pid)))
    {
      ReplyKeepsText(msg[..], pid);
      SetSender();
      PutHolds(rmc.View(), c, msg[..], m.(sender := pid));
      rmc.Put(msg);
    }

    /** One turn of the server's loop, when a message is there. `rmcs` are the reply channels that
        `mc_open` finds. */
    method Turn(rmcs: map<int, MemChannel>, ghost s: Echo) returns (goOn: bool)
      requires IsInt(pid) && s.pid == pid && s.server.Idle? && s.smc.items > 0 && CanReply(s)
      requires Apart(rmcs) && Holds(smc.View(), s.smc)
      requires (forall p :: p in rmcs <==> CanOpen(s, p)) && HoldReplies(rmcs, s)
      modifies smc, smc.items, msg
      modifies set p | p in rmcs :: rmcs[p]
      modifies set p | p in rmcs :: rmcs[p].items
      ensures goOn <==> Answered(s).server.Idle?
      ensures Holds(smc.View(), Answered(s).smc) && HoldReplies(rmcs, Answered(s))
    {
      GetHolds(smc.View(), s.smc);
      smc.Get(msg);
      assert Shows(msg[..], s.smc.queue[0]);
      if Sender(msg[..]) == 0 && msg[SENDER_SIZE] == 0 {
        return false;
      }
      var sender := Sender(msg[..]);
      if sender in rmcs {
        Reply(rmcs[sender], s.clients[sender].rmc, s.smc.queue[0]);
      }
      return true;
    }
  }

  ghost predicate HoldReplies(rmcs: map<int, MemChannel>, s: Echo)
    reads set p | p in rmcs :: rmcs[p], set p | p in rmcs :: rmcs[p].items
  {
    forall p :: p in rmcs ==> p in s.clients && Holds(rmcs[p].View(), s.clients[p].rmc)
  }

  // ---------------------------------------------------------------- what an exchange is to the protocol

  predicate AtPrompt(s: Echo, p: int) {
    p in s.clients && s.clients[p].phase == Ready && s.smc.space > 0
  }

  /** The client has typed a line and, if anything is left of it, put its request. */
  function Asked(s: Echo, p: int, line: string): Echo
    requires AtPrompt(s, p)
  {
    var c, t := s.clients[p], Strip(line);
    if t == "" then s.(clients := s.clients[p := c.(phase := Closed)])
    else s.(smc := Replied(s.smc, Msg(p, t, p, |c.sent|)),
            clients := s.clients[p := c.(phase := Awaiting(t), sent := c.sent + [t])])
  }

  lemma AskedRuns(s: Echo, p: int, line: string) returns (es: seq<P.Event>)
    requires AtPrompt(s, p) && |line| < MSG_MAX_LEN
    ensures P.IsRun(s, es) && P.Run(s, es) == Asked(s, p, line)
    ensures forall i :: 0 <= i < |es| ==> es[i] == Type(p, line) || es[i] == ClientStep(p)
  {
    var c := s.clients[p];
    var s1 := P.Next(s, Type(p, line));
    RunOneMore(s, [], Type(p, line));
    es := [] + [Type(p, line)];
    if Strip(line) != "" {
      var s2 := P.Next(s1, ClientStep(p));
      RunOneMore(s, es, ClientStep(p));
      var s3 := P.Next(s2, ClientStep(p));
      RunOneMore(s, es + [ClientStep(p)], ClientStep(p));
      RunOneMore(s, es + [ClientStep(p)] + [ClientStep(p)], ClientStep(p));
      es := es + [ClientStep(p)] + [ClientStep(p)] + [ClientStep(p)];
      assert P.Next(s3, ClientStep(p)).clients == Asked(s, p, line).clients;
    }
  }

  predicate HasReply(s: Echo, p: int) {
    p in s.clients && s.clients[p].phase.Awaiting? && s.clients[p].rmc.items > 0 && s.clients[p].rmc.queue != []
  }

  /** The client has taken its reply. */
  function Told(s: Echo, p: int): Echo
    requires HasReply(s, p)
  {
    var c := s.clients[p];
    s.(clients := s.clients[p := c.(phase := Ready, received := c.received + [c.rmc.queue[0]],
                                    rmc := Spec.Chan(c.rmc.space + 1, c.rmc.items - 1, c.rmc.queue[1..]))])
  }

  lemma ToldRuns(s: Echo, p: int) returns (es: seq<P.Event>)
    requires HasReply(s, p)
    ensures P.IsRun(s, es) && P.Run(s, es) == Told(s, p)
    ensures forall i :: 0 <= i < |es| ==> es[i] == ClientStep(p)
  {
    var s1 := P.Next(s, ClientStep(p));
    var s2 := P.Next(s1, ClientStep(p));
    RunOneMore(s, [], ClientStep(p));
    RunOneMore(s, [] + [ClientStep(p)], ClientStep(p));
    RunOneMore(s, [] + [ClientStep(p)] + [ClientStep(p)], ClientStep(p));
    es := [] + [ClientStep(p)] + [ClientStep(p)] + [ClientStep(p)];
    assert P.Next(s2, ClientStep(p)).clients == Told(s, p).clients;
  }

  // ---------------------------------------------------------------- a client

  class EchoClient {
    const pid: int
    const smc: MemChannel
    const rmc: MemChannel
    const smsg: array<byte>
    const rmsg: array<byte>

    /** The reply channel, the opened server channel, and `smsg` with the client as its sender. */
    constructor (pid: int, smc: MemChannel)
      requires IsInt(pid)
      ensures this.pid == pid && this.smc == smc && fresh(rmc) && fresh(rmc.items) && fresh(smsg) && fresh(rmsg)
      ensures Ready() && Holds(rmc.View(), Spec.Chan(REPLY_CAPACITY, 0, []))
      ensures rmc.elemSize == 260 && rmc.capacity == 1
    {
      this.pid, this.smc := pid, smc;
      rmc := new MemChannel(SIZE, REPLY_CAPACITY);
      var b := IntBytes(pid);
      smsg := new byte[SIZE](i requires 0 <= i < SIZE => if i < SENDER_SIZE then b[i] else 0);
      rmsg := new byte[SIZE];
      new;
      assert smsg[..SENDER_SIZE] == b;
    }

    ghost predicate Ready() reads smsg {
      && IsInt(pid) && smsg.Length == SIZE && rmsg.Length == SIZE && smsg[..SENDER_SIZE] == IntBytes(pid)
      && smsg != smc.items && rmsg != rmc.items && smsg != rmsg && smsg != rmc.items && rmsg != smc.items
      && rmc != smc && rmc.items != smc.items
    }

    /** The line as `fgets` leaves it, less its last character. */
    method ReadLine(line: string)
      requires Ready() && 1 <= |line| < TEXT_SIZE && AllStorable(line)
      modifies smsg
      ensures Ready() && Sender(smsg[..]) == pid && Text(smsg[..]) == line[..|line| - 1]
      ensures forall j :: 0 <= j < |line| - 1 ==> smsg[SENDER_SIZE + j] as int == line[j] as int
      ensures smsg[SENDER_SIZE + |line| - 1] == 0
    {
      for i := 0 to |line|
        invariant smsg[..SENDER_SIZE] == IntBytes(pid)
        invariant forall j :: 0 <= j < i ==> smsg[SENDER_SIZE + j] == line[j] as int as byte
      {
        smsg[SENDER_SIZE + i] := line[i] as int as byte;
      }
      smsg[SENDER_SIZE + |line|] := 0;
      smsg[SENDER_SIZE + |line| - 1] := 0;
      ghost var b := smsg[SENDER_SIZE..];
      SenderRoundTrip(pid, b);
      assert smsg[..] == IntBytes(pid) + b;
      ghost var text := line[..|line| - 1];
      assert CharBytes(text) + [0] == b[..|line|];
      TextRoundTrip(text, b);
    }

    /** A turn of the client's loop up to its put: false when it closes. "" stands for end of file. */
    method Send(line: string, ghost s: Echo) returns (sent: bool)
      requires Ready() && AtPrompt(s, pid) && |line| < TEXT_SIZE && AllStorable(line) && Holds(smc.View(), s.smc)
      modifies smsg, smc, smc.items
      ensures Ready() && (sent <==> |line| > 1) && Holds(smc.View(), Asked(s, pid, line).smc)
    {
      if line == "" {
        return false;
      }
      ReadLine(line);
      if smsg[SENDER_SIZE] == 0 {
        return false;
      }
      PutHolds(smc.View(), s.smc, smsg[..], Msg(pid, Strip(line), pid, |s.clients[pid].sent|));
      smc.Put(smsg);
      return true;
    }

    /** ... and from its get on: the text received. */
    method Receive(ghost s: Echo) returns (text: string)
      requires Ready() && HasReply(s, pid) && Holds(rmc.View(), s.clients[pid].rmc)
      modifies rmsg, rmc
      ensures Ready() && text == s.clients[pid].rmc.queue[0].text && Holds(rmc.View(), Told(s, pid).clients[pid].rmc)
    {
      GetHolds(rmc.View(), s.clients[pid].rmc);
      rmc.Get(rmsg);
      return Text(rmsg[..]);
    }
  }

  // ---------------------------------------------------------------- both together

  /** The protocol with nobody but client p, between exchanges. */
  ghost predicate Quiet(s: Echo, p: int) {
    && P.Inv(s) && s.server == Idle && s.smc == Spec.Chan(SERVER_CAPACITY, 0, [])
    && s.clients.Keys == {p} && s.clients[p].phase == Ready
  }

  /** Server and client are between exchanges of the protocol state s, in which nobody else takes part. */
  ghost predicate AtRest(server: EchoServer, client: EchoClient, s: Echo)
    reads client.smsg, client.smc, client.smc.items, client.rmc, client.rmc.items
  {
    && s.pid == server.pid && IsInt(server.pid) && Quiet(s, client.pid)
    && client.Ready() && client.smc == server.smc && server.Apart(map[client.pid := client.rmc])
    && server.msg != client.smsg && server.msg != client.rmsg
    && Holds(client.smc.View(), s.smc) && Holds(client.rmc.View(), s.clients[client.pid].rmc)
  }

  /** A whole exchange of the protocol: request, reply, receipt. */
  lemma ExchangeRuns(s: Echo, p: int, line: string) returns (es: seq<P.Event>, n: Echo)
    requires Quiet(s, p) && |line| < MSG_MAX_LEN && Strip(line) != ""
    ensures AtPrompt(s, p) && CanReply(Asked(s, p, line)) && Asked(s, p, line).smc.items > 0
    ensures CanOpen(Asked(s, p, line), p) && !IsTermination(Asked(s, p, line).smc.queue[0])
    ensures HasReply(Answered(Asked(s, p, line)), p)
    ensures Answered(Asked(s, p, line)).clients[p].rmc.queue[0] == Msg(s.pid, Strip(line), p, |s.clients[p].sent|)
    ensures n == Told(Answered(Asked(s, p, line)), p) && P.IsRun(s, es) && n == P.Run(s, es) && Quiet(n, p)
    ensures n.clients[p].received == s.clients[p].received + [Msg(s.pid, Strip(line), p, |s.clients[p].sent|)]
  {
    assert Fine(s, p);
    var s1 := Asked(s, p, line);
    var es1 := AskedRuns(s, p, line);
    P.RunKeepsInv(s, es1);
    assert s1.smc.queue == [Msg(p, Strip(line), p, |s.clients[p].sent|)];
    var s2 := Answered(s1);
    var es2 := AnsweredRuns(s1);
    P.RunKeepsInv(s1, es2);
    var es3 := ToldRuns(s2, p);
    P.RunKeepsInv(s2, es3);
    n := Told(s2, p);
    RunsJoin(s, es1, es2);
    RunsJoin(s, es1 + es2, es3);
    es := es1 + es2 + es3;
  }

  lemma {:induction false} RunsJoin(s: Echo, es: seq<P.Event>, fs: seq<P.Event>)
    requires P.IsRun(s, es) && P.IsRun(P.Run(s, es), fs)
    ensures P.IsRun(s, es + fs) && P.Run(s, es + fs) == P.Run(P.Run(s, es), fs)
    decreases |es|
  {
    if es == [] {
      assert es + fs == fs;
    } else {
      RunsJoin(P.Next(s, es[0]), es[1..], fs);
      assert (es + fs)[1..] == es[1..] + fs;
    }
  }

  /** The server's turn for the only client there is. */
  method Serve(server: EchoServer, client: EchoClient, ghost s: Echo)
    requires IsInt(server.pid) && s.pid == server.pid && s.server.Idle? && s.smc.items > 0 && CanReply(s)
    requires s.clients.Keys == {client.pid} && CanOpen(s, client.pid)
    requires client.smc == server.smc && server.Apart(map[client.pid := client.rmc])
    requires Holds(client.smc.View(), s.smc) && Holds(client.rmc.View(), s.clients[client.pid].rmc)
    modifies server.msg, client.smc, client.smc.items, client.rmc, client.rmc.items
    ensures Holds(client.smc.View(), Answered(s).smc) && client.pid in Answered(s).clients
    ensures Holds(client.rmc.View(), Answered(s).clients[client.pid].rmc)
  {
    var rmcs := map[client.pid := client.rmc];
    var goOn := server.Turn(rmcs, s);
    assert client.pid in rmcs;
  }

  /** A line typed at a client comes back from the server, as bytes through both channels; server and
      client are then ready for the next, in a state the protocol reaches. */
  method Exchange(server: EchoServer, client: EchoClient, line: string, ghost s: Echo)
    returns (text: string, ghost es: seq<P.Event>)
    requires AtRest(server, client, s) && 1 < |line| < TEXT_SIZE && AllStorable(line)
    modifies server.msg, client.smsg, client.rmsg, client.smc, client.smc.items, client.rmc, client.rmc.items
    ensures text == line[..|line| - 1]
    ensures P.IsRun(s, es) && AtRest(server, client, P.Run(s, es))
  {
    ghost var n;
    es, n := ExchangeRuns(s, client.pid, line);
    ghost var s1 := Asked(s, client.pid, line);
    var sent := client.Send(line, s);
    Serve(server, client, s1);
    text := client.Receive(Answered(s1));
  }

  lemma ConnectRuns(pid: int, p: int) returns (es: seq<P.Event>)
    requires p != 0
    ensures P.IsRun(P.Start(pid), es) && Quiet(P.Run(P.Start(pid), es), p) && P.Run(P.Start(pid), es).pid == pid
    ensures P.Run(P.Start(pid), es).clients[p].rmc == Spec.Chan(REPLY_CAPACITY, 0, [])
  {
    var s := P.Start(pid);
    P.StartHasInv(pid);
    RunOneMore(s, [], Create(p));
    RunOneMore(s, [] + [Create(p)], ClientStep(p));
    es := [] + [Create(p)] + [ClientStep(p)];
    P.RunKeepsInv(s, es);
  }

  function Line(text: string): string { text + "\n" }

  lemma LineFits(text: string)
    requires 0 < |text| < TEXT_SIZE - 1 && AllStorable(text)
    ensures 1 < |Line(text)| < TEXT_SIZE && AllStorable(Line(text)) && Line(text)[..|Line(text)| - 1] == text
  {
  }

  /** One exchange more. */
  method NextExchange(server: EchoServer, client: EchoClient, text: string, ghost s: Echo)
    returns (reply: string, ghost n: Echo)
    requires AtRest(server, client, s) && 0 < |text| < TEXT_SIZE - 1 && AllStorable(text)
    modifies server.msg, client.smsg, client.rmsg, client.smc, client.smc.items, client.rmc, client.rmc.items
    ensures reply == text && AtRest(server, client, n)
  {
    ghost var es;
    LineFits(text);
    reply, es := Exchange(server, client, Line(text), s);
    n := P.Run(s, es);
  }

  /** A server and a client from their start. */
  method Connect(serverPid: int, clientPid: int) returns (server: EchoServer, client: EchoClient, ghost s: Echo)
    requires IsInt(serverPid) && IsInt(clientPid) && clientPid != 0
    ensures AtRest(server, client, s)
    ensures fresh(server.msg) && fresh(client.smsg) && fresh(client.rmsg) && fresh(client.smc)
    ensures fresh(client.smc.items) && fresh(client.rmc) && fresh(client.rmc.items)
  {
    server := new EchoServer(serverPid);
    client := new EchoClient(clientPid, server.smc);
    ghost var es := ConnectRuns(serverPid, clientPid);
    s := P.Run(P.Start(serverPid), es);
  }

  /** A server and a client from their start: every text typed, each ended by a newline, comes back,
      in order. */
  method Session(serverPid: int, clientPid: int, texts: seq<string>) returns (replies: seq<string>)
    requires IsInt(serverPid) && IsInt(clientPid) && clientPid != 0
    requires forall i :: 0 <= i < |texts| ==> 0 < |texts[i]| < TEXT_SIZE - 1 && AllStorable(texts[i])
    ensures replies == texts
  {
    var server, client;
    ghost var s;
    server, client, s := Connect(serverPid, clientPid);
    replies := [];
    for i := 0 to |texts|
      invariant AtRest(server, client, s)
      invariant replies == texts[..i]
      invariant fresh(server.msg) && fresh(client.smsg) && fresh(client.rmsg) && fresh(client.smc)
      invariant fresh(client.smc.items) && fresh(client.rmc) && fresh(client.rmc.items)
    {
      var reply;
      reply, s := NextExchange(server, client, texts[i], s);
      replies := replies + [reply];
    }
  }
}
