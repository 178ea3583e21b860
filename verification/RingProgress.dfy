/** The programs of `EchoRings` and the positions inside their calls agree, so no step of a program
    waits for anything but a semaphore or a lock; and the protocol on the rings never gets stuck. */
module RingProgress {
  import opened EchoPrograms
  import opened EchoRings
  import opened Messages
  import opened Tallies
  import E = Echo
  import M = MemChannels

  // ---------------------------------------------------------------- who is inside which call

  predicate Putting(mc: M.Mc, t: nat, b: M.Bytes) { At(mc, t, M.PutWaited(b)) || At(mc, t, M.PutLocked(b)) }

  predicate HasPut(mc: M.Mc, t: nat) { At(mc, t, M.PutCopied) || At(mc, t, M.PutUnlocked) }

  predicate Getting(mc: M.Mc, t: nat) { At(mc, t, M.GetWaited) || At(mc, t, M.GetLocked) }

  predicate HasGot(mc: M.Mc, t: nat, b: M.Bytes) { At(mc, t, M.GetCopied(b)) || At(mc, t, M.GetUnlocked(b)) }

  predicate ServerTakes(v: Server, smc: M.Mc) {
    match v
    case Waited => Getting(smc, SERVER)
    case Took(b) => HasGot(smc, SERVER, b)
    case _ => SERVER !in smc.pcs
  }

  /** Whether the server is inside a put on the reply channel of p. */
  predicate Answering(v: Server, p: int) {
    (v.WithSpace? || v.Put?) && |v.b| == SIZE && Sender(v.b) == p
  }

  predicate ServerReplies(v: Server, pid: int, p: int, rmc: M.Mc)
    requires IsInt(pid)
  {
    if !Answering(v, p) then SERVER !in rmc.pcs
    else if v.WithSpace? then Putting(rmc, SERVER, Reply(pid, v.b))
    else HasPut(rmc, SERVER)
  }

  predicate ClientAsks(f: Phase, t: nat, smc: M.Mc) {
    match f
    case HasSpace(b) => Putting(smc, t, b)
    case Sent(_) => HasPut(smc, t)
    case _ => t !in smc.pcs
  }

  predicate ClientHears(f: Phase, t: nat, rmc: M.Mc) {
    match f
    case HasItem(_) => Getting(rmc, t)
    case Taken(b) => HasGot(rmc, t, b)
    case _ => t !in rmc.pcs
  }

  predicate TermPuts(terms: map<nat, bool>, k: nat, smc: M.Mc) {
    if k !in terms then TermThread(k) !in smc.pcs
    else if terms[k] then HasPut(smc, TermThread(k))
    else Putting(smc, TermThread(k), TermBytes())
  }

  ghost predicate ClientCoupled(c: Rings, p: int)
    requires IsInt(c.pid) && p in c.clients
  {
    var k := c.clients[p];
    && p > 0
    && ServerReplies(c.server, c.pid, p, k.rmc)
    && ClientAsks(k.phase, ClientThread(p), c.smc) && ClientHears(k.phase, ClientThread(p), k.rmc)
    && (forall t :: t in k.rmc.pcs ==> t == SERVER || t == ClientThread(p))
  }

  ghost predicate Coupled(c: Rings)
    requires IsInt(c.pid)
  {
    && ServerTakes(c.server, c.smc)
    && (forall p :: p in c.clients ==> ClientCoupled(c, p))
    && (forall k: nat :: TermPuts(c.terms, k, c.smc))
    && (forall t :: t in c.smc.pcs && t != SERVER && t % 2 == 0 ==> t / 2 in c.clients)
    && ((c.server.WithSpace? || c.server.Put?) ==> |c.server.b| == SIZE && Sender(c.server.b) in c.clients)
  }

  /** Thread t is at the same place in both. */
  predicate SamePlace(mc: M.Mc, n: M.Mc, t: nat) {
    (t in n.pcs <==> t in mc.pcs) && (t in mc.pcs ==> n.pcs[t] == mc.pcs[t])
  }

  /** A step inside a call moves nobody else. */
  lemma OtherStays(mc: M.Mc, e: M.Event, t: nat)
    requires M.Sized(mc) && M.Enabled(mc, e)
    ensures t != e.thread ==> SamePlace(mc, M.Next(mc, e), t)
    ensures M.Next(mc, e).pcs.Keys <= mc.pcs.Keys + {e.thread}
  {
  }

  /** Taking or dropping a lock leaves every thread where its program says it is. */
  lemma MutexStays(mc: M.Mc, e: M.Event, t: nat)
    requires M.Sized(mc) && M.Enabled(mc, e) && IsMutex(e)
    ensures var n := M.Next(mc, e);
            && (forall b :: Putting(n, t, b) <==> Putting(mc, t, b)) && (HasPut(n, t) <==> HasPut(mc, t))
            && (Getting(n, t) <==> Getting(mc, t)) && (forall b :: HasGot(n, t, b) <==> HasGot(mc, t, b))
            && (t in n.pcs <==> t in mc.pcs) && n.pcs.Keys == mc.pcs.Keys
  {
  }

  /** What a client and a terminator have to do with the server channel when another thread steps. */
  lemma AskerStays(c: Rings, n: Rings, p: int)
    requires IsInt(c.pid) && n.pid == c.pid && p in c.clients && p in n.clients && n.clients[p] == c.clients[p]
    requires ClientCoupled(c, p) && SamePlace(c.smc, n.smc, ClientThread(p))
    requires ServerReplies(n.server, n.pid, p, n.clients[p].rmc)
    ensures ClientCoupled(n, p)
  {
  }

  lemma TermStays(c: Rings, n: Rings, k: nat)
    requires TermPuts(c.terms, k, c.smc) && SamePlace(c.smc, n.smc, TermThread(k))
    requires (k in n.terms <==> k in c.terms) && (k in c.terms ==> n.terms[k] == c.terms[k])
    ensures TermPuts(n.terms, k, n.smc)
  {
  }

  lemma ServerTakesKeeps(c: Rings)
    requires WellFormed(c) && Coupled(c) && ServerEnabled(c) && (c.server.Idle? || c.server.Waited? || c.server.Took?)
    ensures Coupled(ServerNext(c))
  {
    var n := ServerNext(c);
    var e := if c.server.Idle? then M.GetWait(SERVER) else if c.server.Waited? then M.Copy(SERVER) else M.Post(SERVER);
    OtherStays(c.smc, e, SERVER);
    forall p | p in n.clients ensures ClientCoupled(n, p) {
      assert ClientCoupled(c, p);
      OtherStays(c.smc, e, ClientThread(p));
      AskerStays(c, n, p);
    }
    forall k: nat ensures TermPuts(n.terms, k, n.smc) {
      OtherStays(c.smc, e, TermThread(k));
      TermStays(c, n, k);
    }
  }

  lemma ServerDecidesKeeps(c: Rings)
    requires WellFormed(c) && Coupled(c) && (c.server.Got? || c.server.Leaving?)
    ensures Coupled(ServerNext(c))
  {
    forall p | p in c.clients ensures ClientCoupled(ServerNext(c), p) {
      assert ClientCoupled(c, p);
    }
  }

  lemma ServerRepliesKeeps(c: Rings)
    requires WellFormed(c) && Coupled(c) && ServerEnabled(c)
    requires c.server.Replying? || c.server.WithSpace? || c.server.Put?
    ensures Coupled(ServerNext(c))
  {
    var n, q := ServerNext(c), Sender(c.server.b);
    var e := if c.server.Replying? then M.PutWait(SERVER, Reply(c.pid, c.server.b))
             else if c.server.WithSpace? then M.Copy(SERVER) else M.Post(SERVER);
    assert ClientCoupled(c, q);
    OtherStays(c.clients[q].rmc, e, ClientThread(q));
    forall p | p in n.clients ensures ClientCoupled(n, p) {
      assert ClientCoupled(c, p);
    }
  }

  lemma ServerKeepsCoupled(c: Rings)
    requires WellFormed(c) && Coupled(c) && ServerEnabled(c)
    ensures Coupled(ServerNext(c))
  {
    if c.server.Idle? || c.server.Waited? || c.server.Took? {
      ServerTakesKeeps(c);
    } else if c.server.Got? || c.server.Leaving? {
      ServerDecidesKeeps(c);
    } else {
      ServerRepliesKeeps(c);
    }
  }

  lemma ClientAsksKeeps(c: Rings, p: int)
    requires WellFormed(c) && Coupled(c) && ClientEnabled(c, p)
    requires c.clients[p].phase.Sending? || c.clients[p].phase.HasSpace? || c.clients[p].phase.Sent?
    ensures Coupled(ClientNext(c, p))
  {
    var n, f, t := ClientNext(c, p), c.clients[p].phase, ClientThread(p);
    var e := if f.Sending? then M.PutWait(t, f.b) else if f.HasSpace? then M.Copy(t) else M.Post(t);
    assert ClientCoupled(c, p);
    OtherStays(c.smc, e, SERVER);
    forall q | q in n.clients ensures ClientCoupled(n, q) {
      assert ClientCoupled(c, q);
      if q != p {
        OtherStays(c.smc, e, ClientThread(q));
        AskerStays(c, n, q);
      }
    }
    forall k: nat ensures TermPuts(n.terms, k, n.smc) {
      OtherStays(c.smc, e, TermThread(k));
      TermStays(c, n, k);
    }
  }

  /** Steps of a client that leave the server channel alone. */
  lemma ClientHearsKeeps(c: Rings, p: int)
    requires WellFormed(c) && Coupled(c) && ClientEnabled(c, p)
    requires !(c.clients[p].phase.Sending? || c.clients[p].phase.HasSpace? || c.clients[p].phase.Sent?)
    ensures Coupled(ClientNext(c, p))
  {
    var n, f, t := ClientNext(c, p), c.clients[p].phase, ClientThread(p);
    assert ClientCoupled(c, p);
    if !f.Created? {
      var e := if f.Awaiting? then M.GetWait(t) else if f.HasItem? then M.Copy(t) else M.Post(t);
      OtherStays(c.clients[p].rmc, e, SERVER);
    }
    forall q | q in n.clients ensures ClientCoupled(n, q) {
      assert ClientCoupled(c, q);
    }
  }

  lemma PromptKeepsCoupled(c: Rings, e: Event)
    requires WellFormed(c) && Coupled(c) && Enabled(c, e) && (e.Type? || e.Create?)
    ensures Coupled(Next(c, e))
  {
    forall q | q in Next(c, e).clients ensures ClientCoupled(Next(c, e), q) {
      if q in c.clients {
        assert ClientCoupled(c, q);
      } else {
        assert ClientThread(q) / 2 == q && ClientThread(q) % 2 == 0;
      }
    }
  }

  lemma TermKeepsCoupled(c: Rings, e: Event)
    requires WellFormed(c) && Coupled(c) && Enabled(c, e) && (e.TermStart? || e.TermCopy? || e.TermPost?)
    ensures Coupled(Next(c, e))
  {
    var n, t := Next(c, e), TermThread(e.k);
    var step := if e.TermStart? then M.PutWait(t, TermBytes()) else if e.TermCopy? then M.Copy(t) else M.Post(t);
    assert TermPuts(c.terms, e.k, c.smc);
    OtherStays(c.smc, step, SERVER);
    forall q | q in n.clients ensures ClientCoupled(n, q) {
      assert ClientCoupled(c, q);
      OtherStays(c.smc, step, ClientThread(q));
      AskerStays(c, n, q);
    }
    forall k: nat ensures TermPuts(n.terms, k, n.smc) {
      if k != e.k {
        OtherStays(c.smc, step, TermThread(k));
        TermStays(c, n, k);
      }
    }
  }

  lemma ServerMutexKeeps(c: Rings, e: M.Event)
    requires WellFormed(c) && Coupled(c) && Enabled(c, ServerMutex(e))
    ensures Coupled(Next(c, ServerMutex(e)))
  {
    var n := Next(c, ServerMutex(e));
    MutexStays(c.smc, e, SERVER);
    forall q | q in n.clients ensures ClientCoupled(n, q) {
      assert ClientCoupled(c, q);
      MutexStays(c.smc, e, ClientThread(q));
    }
    forall k: nat ensures TermPuts(n.terms, k, n.smc) {
      assert TermPuts(c.terms, k, c.smc);
      MutexStays(c.smc, e, TermThread(k));
    }
  }

  lemma ReplyMutexKeeps(c: Rings, p: int, e: M.Event)
    requires WellFormed(c) && Coupled(c) && Enabled(c, ReplyMutex(p, e))
    ensures Coupled(Next(c, ReplyMutex(p, e)))
  {
    var n := Next(c, ReplyMutex(p, e));
    forall q | q in n.clients ensures ClientCoupled(n, q) {
      assert ClientCoupled(c, q);
      if q == p {
        MutexStays(c.clients[p].rmc, e, SERVER);
        MutexStays(c.clients[p].rmc, e, ClientThread(p));
      }
    }
  }

  /** Every step keeps programs and positions in agreement. */
  lemma NextKeepsCoupled(c: Rings, e: Event)
    requires WellFormed(c) && Coupled(c) && Enabled(c, e)
    ensures Coupled(Next(c, e))
  {
    match e
    case ServerStep => ServerKeepsCoupled(c);
    case ClientStep(p) =>
      var f := c.clients[p].phase;
      if f.Sending? || f.HasSpace? || f.Sent? {
        ClientAsksKeeps(c, p);
      } else {
        ClientHearsKeeps(c, p);
      }
    case Type(_, _, _) => PromptKeepsCoupled(c, e);
    case Create(_, _) => PromptKeepsCoupled(c, e);
    case ServerMutex(e2) => ServerMutexKeeps(c, e2);
    case ReplyMutex(p, e2) => ReplyMutexKeeps(c, p, e2);
    case _ => TermKeepsCoupled(c, e);
  }

  // ---------------------------------------------------------------- what comes from outside

  /** The buffer of client p once a line with this text is in it, less its last character. */
  function Typed(p: int, text: string, rest: M.Bytes): (b: M.Bytes)
    requires IsInt(p) && AllStorable(text) && |text| + 1 + |rest| == TEXT_SIZE
    ensures |b| == SIZE
  {
    IntBytes(p) + (CharBytes(text) + [0] + rest)
  }

  /** At its prompt a client may be given any line that fits, whatever an earlier one left in its buffer;
      any new client may arrive, and any new terminator begin while the server channel has space. */
  lemma InputIsPossible(c: Rings, p: int, text: string, last: char, rest: M.Bytes, k: nat, junk: M.Bytes)
    requires WellFormed(c) && Coupled(c) && IsInt(p)
    requires AllStorable(text) && |text| + 1 + |rest| == TEXT_SIZE && rest != [] && |junk| == SIZE
    ensures p in c.clients && c.clients[p].phase == Ready ==>
              Enabled(c, Type(p, text + [last], Typed(p, text, rest)))
    ensures p > 0 && p !in c.clients ==> Enabled(c, Create(p, junk))
    ensures k !in c.terms && c.smc.hasSpace > 0 ==> Enabled(c, TermStart(k))
  {
    var tail := CharBytes(text) + [0] + rest;
    SenderRoundTrip(p, tail);
    TextRoundTrip(text, tail);
    assert Typed(p, text, rest)[SENDER_SIZE..] == tail;
    assert (text + [last])[..|text|] == text;
    assert TermPuts(c.terms, k, c.smc);
  }

  // ---------------------------------------------------------------- somebody can always step

  /** A step of the protocol itself: not a user typing, a client arriving or a terminator starting. */
  predicate Internal(e: Event) {
    !(e.Type? || e.Create? || e.TermStart?)
  }

  /** A client that can copy or post on the server channel is at that step of its program. */
  lemma ClientInsideSteps(c: Rings, s: E.Echo, e: M.Event)
    requires WellFormed(c) && Simulates(c, s) && M.Enabled(c.smc, e) && (e.Copy? || e.Post?)
    requires e.thread / 2 in c.clients && ClientCoupled(c, e.thread / 2) && e.thread % 2 == 0
    ensures ClientEnabled(c, e.thread / 2)
  {
    assert ClientThread(e.thread / 2) == e.thread;
    assert ClientShows(e.thread / 2, c.clients[e.thread / 2], s.clients[e.thread / 2]);
  }

  lemma TermInsideSteps(c: Rings, e: M.Event)
    requires WellFormed(c) && M.Enabled(c.smc, e) && (e.Copy? || e.Post?)
    requires e.thread % 2 == 1 && TermPuts(c.terms, e.thread / 2, c.smc)
    ensures Enabled(c, TermCopy(e.thread / 2)) || Enabled(c, TermPost(e.thread / 2))
  {
    assert TermThread(e.thread / 2) == e.thread;
  }

  lemma ServerInsideSteps(c: Rings, e: M.Event)
    requires WellFormed(c) && M.Enabled(c.smc, e) && (e.Copy? || e.Post?)
    requires e.thread == SERVER && ServerTakes(c.server, c.smc)
    ensures ServerEnabled(c)
  {
  }

  /** While anyone is inside a call on the server channel, one of those can step. */
  lemma InsideServerSteps(c: Rings, s: E.Echo)
    requires WellFormed(c) && Coupled(c) && Simulates(c, s) && c.smc.pcs != map[]
    ensures exists e :: Internal(e) && Enabled(c, e)
  {
    M.InsideNeverStuck(c.smc);
    var e :| !M.IsWait(e) && M.Enabled(c.smc, e);
    var t := e.thread;
    if IsMutex(e) {
      assert Internal(ServerMutex(e)) && Enabled(c, ServerMutex(e));
    } else if t == SERVER {
      ServerInsideSteps(c, e);
      assert Internal(ServerStep) && Enabled(c, ServerStep);
    } else if t % 2 == 0 {
      assert ClientCoupled(c, t / 2);
      ClientInsideSteps(c, s, e);
      assert Internal(ClientStep(t / 2)) && Enabled(c, ClientStep(t / 2));
    } else {
      assert TermPuts(c.terms, t / 2, c.smc);
      TermInsideSteps(c, e);
      assert Internal(TermPost(t / 2)) && Internal(TermCopy(t / 2));
    }
  }

  /** The same on a reply channel. */
  lemma InsideReplySteps(c: Rings, s: E.Echo, p: int)
    requires WellFormed(c) && Coupled(c) && Simulates(c, s) && p in c.clients && c.clients[p].rmc.pcs != map[]
    ensures exists e :: Internal(e) && Enabled(c, e)
  {
    var k := c.clients[p];
    assert ClientCoupled(c, p) && ClientShows(p, k, s.clients[p]);
    M.InsideNeverStuck(k.rmc);
    var e :| !M.IsWait(e) && M.Enabled(k.rmc, e);
    if IsMutex(e) {
      assert Internal(ReplyMutex(p, e)) && Enabled(c, ReplyMutex(p, e));
    } else if e.thread == SERVER {
      assert Internal(ServerStep) && Enabled(c, ServerStep);
    } else {
      assert Internal(ClientStep(p)) && Enabled(c, ClientStep(p));
    }
  }

  ghost predicate NobodyInside(c: Rings) {
    c.smc.pcs == map[] && forall p :: p in c.clients ==> c.clients[p].rmc.pcs == map[]
  }

  lemma NoTermInside(c: Rings, s: E.Echo)
    requires IsInt(c.pid) && Coupled(c) && TermsShow(c.terms, s) && c.smc.pcs == map[]
    ensures s.termWaited == 0 && s.termPut == 0
  {
    forall k ensures k !in c.terms {
      assert TermPuts(c.terms, k, c.smc);
    }
    assert Where(c.terms, (copied: bool) => copied) == {} && Where(c.terms, (copied: bool) => !copied) == {};
  }

  lemma ServerOutsideSteps(c: Rings, s: E.Echo)
    requires WellFormed(c) && Coupled(c) && Simulates(c, s) && E.ServerEnabled(s) && NobodyInside(c)
    ensures ServerEnabled(c)
  {
    if c.server.Replying? || c.server.WithSpace? || c.server.Put? {
      var p := Sender(c.server.b);
      assert ClientCoupled(c, p) && ClientShows(p, c.clients[p], s.clients[p]);
    }
  }

  lemma ClientOutsideSteps(c: Rings, s: E.Echo, p: int)
    requires WellFormed(c) && Simulates(c, s) && E.ClientEnabled(s, p) && NobodyInside(c)
    requires p in c.clients && ClientCoupled(c, p)
    ensures ClientEnabled(c, p)
  {
    assert ClientShows(p, c.clients[p], s.clients[p]);
  }

  /** With nobody inside a call, what the protocol can do the programs can do. */
  lemma OutsideSteps(c: Rings, s: E.Echo, f: E.Event)
    requires WellFormed(c) && Coupled(c) && Simulates(c, s) && E.Internal(f) && E.Enabled(s, f) && NobodyInside(c)
    ensures exists e :: Internal(e) && Enabled(c, e)
  {
    NoTermInside(c, s);
    if f.ServerStep? {
      ServerOutsideSteps(c, s);
      assert Internal(ServerStep) && Enabled(c, ServerStep);
    } else {
      assert ClientCoupled(c, f.p);
      ClientOutsideSteps(c, s, f.p);
      assert Internal(ClientStep(f.p)) && Enabled(c, ClientStep(f.p));
    }
  }

  predicate InExchange(k: Client) {
    !(k.phase.Created? || k.phase.Ready? || k.phase.Closed?)
  }

  /** While any client is in an exchange and the server has not stopped, some thread can step. */
  lemma RingsNeverStuck(c: Rings, s: E.Echo, p: int)
    requires WellFormed(c) && Coupled(c) && Simulates(c, s) && E.Inv(s)
    requires !c.server.Stopped? && p in c.clients && InExchange(c.clients[p])
    ensures exists e :: Internal(e) && Enabled(c, e)
  {
    if c.smc.pcs != map[] {
      InsideServerSteps(c, s);
    } else if q :| q in c.clients && c.clients[q].rmc.pcs != map[] {
      InsideReplySteps(c, s, q);
    } else {
      assert ClientShows(p, c.clients[p], s.clients[p]);
      E.NeverStuck(s, p);
      var f :| E.Internal(f) && E.Enabled(s, f);
      OutsideSteps(c, s, f);
    }
  }

  lemma {:induction false} RunKeepsCoupled(c: Rings, es: seq<Event>)
    requires WellFormed(c) && Coupled(c) && IsRun(c, es)
    ensures Coupled(Run(c, es))
    decreases |es|
  {
    if es != [] {
      NextKeepsSizes(c, es[0]);
      NextKeepsCoupled(c, es[0]);
      RunKeepsCoupled(Next(c, es[0]), es[1..]);
    }
  }

  /** In every state the rings reach, with the server not stopped: while a client is in an exchange,
      some thread inside or outside a call can step without further input. */
  lemma RunsNeverStuck(pid: int, junk: M.Bytes, es: seq<Event>, p: int)
    requires IsInt(pid) && |junk| == SIZE * E.SERVER_CAPACITY
    requires (StartSimulates(pid, junk); IsRun(Start(pid, junk), es))
    ensures WellFormed(Start(pid, junk))
    ensures var end := Run(Start(pid, junk), es);
            !end.server.Stopped? && p in end.clients && InExchange(end.clients[p]) ==>
              exists e :: Internal(e) && Enabled(end, e)
  {
    StartSimulates(pid, junk);
    var end := Run(Start(pid, junk), es);
    if !end.server.Stopped? && p in end.clients && InExchange(end.clients[p]) {
      var fs := RunSimulates(Start(pid, junk), E.Start(pid), es);
      E.StartHasInv(pid);
      E.RunKeepsInv(E.Start(pid), fs);
      RunKeepsCoupled(Start(pid, junk), es);
      RingsNeverStuck(end, E.Run(E.Start(pid), fs), p);
    }
  }
}
