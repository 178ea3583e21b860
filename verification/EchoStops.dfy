/** Which requests the echo server still answers once a terminator has been sent: exactly those with
    no terminator ahead of them. The place of a terminator is fixed when it is copied into the
    server channel, so this is known long before the server stops. */
module EchoStops {
  import opened Echo
  import Spec = ChannelSpec

  /** A terminator stands in the queue before the first request of p. */
  predicate TermBefore(q: seq<Msg>, p: int) {
    q != [] && q[0].sender != p &&
    ((IsTermination(q[0]) && Upto(q[1..], p) > 0) || TermBefore(q[1..], p))
  }

  /** The server has stopped, holds a terminator, or will take one before the request of p. */
  predicate TermAhead(s: Echo, p: int) {
    || Ended(s.server)
    || ((s.server.Took? || s.server.Got?) && IsTermination(s.server.msg))
    || TermBefore(s.smc.queue, p)
  }

  lemma {:induction false} TermBeforeAppend(q: seq<Msg>, m: Msg, p: int)
    requires Upto(q, p) > 0 || m.sender != p
    ensures TermBefore(q + [m], p) == TermBefore(q, p)
  {
    if q == [] {
      assert (q + [m])[1..] == [];
    } else {
      assert (q + [m])[1..] == q[1..] + [m];
      if q[0].sender != p {
        TermBeforeAppend(q[1..], m, p);
        UptoAppend(q[1..], m, p);
      }
    }
  }

  lemma {:induction false} TermBeforeHas(q: seq<Msg>, p: int)
    requires TermBefore(q, p)
    ensures Upto(q, p) > 0
  {
    if Upto(q[1..], p) == 0 {
      TermBeforeHas(q[1..], p);
    }
  }

  /** No step of another process puts a terminator ahead of a request, or takes one away. */
  lemma OthersKeepAhead(s: Echo, p: int, e: Event)
    requires Inv(s) && Enabled(s, e) && !e.ServerStep? && p in s.clients && Token(s, p) != []
    ensures TermAhead(Next(s, e), p) == TermAhead(s, p)
  {
    assert Fine(s, p);
    UptoFrom(s.smc.queue, p);
    if e.ClientStep? && s.clients[e.p].phase.HasSpace? {
      var c := s.clients[e.p];
      TermBeforeAppend(s.smc.queue, Msg(e.p, c.phase.text, e.p, |c.sent|), p);
    } else if e.TermCopy? {
      TermBeforeAppend(s.smc.queue, Termination(), p);
    }
  }

  /** Taking the head off the channel, as a request sees it. */
  lemma TakingKeepsAhead(s: Echo, p: int)
    requires p != 0 && s.server.Waited? && s.smc.queue != [] && From(s.smc.queue, p) != [] && |Token(s, p)| <= 1
    ensures Token(ServerNext(s), p) == Token(s, p) && TermAhead(ServerNext(s), p) == TermAhead(s, p)
  {
    TakeKeepsToken(s, p);
    HeadTaken(s.smc.queue, p);
    UptoFrom(s.smc.queue, p);
    UptoFrom(s.smc.queue[1..], p);
    if TermBefore(s.smc.queue[1..], p) {
      TermBeforeHas(s.smc.queue[1..], p);
    }
  }

  /** What the server does with a message in its hands, as the sender of that message sees it. */
  lemma HoldingKeepsAhead(s: Echo, p: int)
    requires ServerEnabled(s) && p != 0 && Carried(s.server, p) != [] && From(s.smc.queue, p) == []
    requires s.server.Got? ==> CanOpen(s, p)
    ensures !TermAhead(s, p) && !TermAhead(ServerNext(s), p)
  {
    UptoFrom(s.smc.queue, p);
    if TermBefore(s.smc.queue, p) {
      TermBeforeHas(s.smc.queue, p);
    }
  }

  /** A server step leaves the request unanswered behind a terminator, or answered or not with none
      ahead. */
  lemma ServerKeepsAhead(s: Echo, p: int)
    requires Inv(s) && ServerEnabled(s) && p in s.clients && Token(s, p) != []
    ensures TermAhead(s, p) ==> Token(ServerNext(s), p) == Token(s, p) && TermAhead(ServerNext(s), p)
    ensures TermAhead(s, p) ==> ServerNext(s).clients[p] == s.clients[p]
    ensures !TermAhead(s, p) && Token(ServerNext(s), p) != [] ==> !TermAhead(ServerNext(s), p)
    ensures !TermAhead(s, p) ==> !Ended(ServerNext(s).server)
  {
    assert Fine(s, p);
    ServerPutNeverBlocks(s);
    if Carried(s.server, p) != [] {
      CarriedIsToken(s, p);
      HoldingKeepsAhead(s, p);
    } else if s.server.Waited? {
      AtMostOneToken(s, p);
      TakingKeepsAhead(s, p);
    }
  }

  lemma StepKeepsAhead(s: Echo, p: int, e: Event)
    requires Inv(s) && Enabled(s, e) && p in s.clients && Token(s, p) != [] && TermAhead(s, p)
    ensures var n := Next(s, e);
            && Inv(n) && p in n.clients && Token(n, p) == Token(s, p) && TermAhead(n, p)
            && Replies(n.clients[p]) == Replies(s.clients[p])
  {
    NextKeepsInv(s, e);
    assert Fine(s, p) && Fine(Next(s, e), p);
    if e.ServerStep? {
      ServerKeepsAhead(s, p);
    } else {
      OthersKeepDistance(s, p, e);
      OthersKeepAhead(s, p, e);
    }
  }

  /** A request with a terminator ahead of it is never answered, in any run. */
  lemma {:induction false} BehindTermNeverAnswered(s: Echo, p: int, es: seq<Event>)
    requires Inv(s) && IsRun(s, es) && p in s.clients && Token(s, p) != [] && TermAhead(s, p)
    ensures var end := Run(s, es);
            p in end.clients && Token(end, p) == Token(s, p) && Replies(end.clients[p]) == Replies(s.clients[p])
    decreases |es|
  {
    if es != [] {
      StepKeepsAhead(s, p, es[0]);
      BehindTermNeverAnswered(Next(s, es[0]), p, es[1..]);
    }
  }

  /** A request with none ahead is answered after `Distance` server steps, whatever else happens in
      between, and whether or not the server is told to stop meanwhile. */
  lemma {:induction false} RequestIsAnswered(s: Echo, p: int, es: seq<Event>)
    requires Inv(s) && IsRun(s, es) && p in s.clients && Token(s, p) != [] && !TermAhead(s, p)
    requires ServerSteps(es) >= Distance(s, p)
    ensures p in Run(s, es).clients && Replies(Run(s, es).clients[p]) > Replies(s.clients[p])
    decreases |es|
  {
    DistancePositive(s, p);
    var n := Next(s, es[0]);
    NextKeepsInv(s, es[0]);
    RepliesStay(n, p, es[1..]);
    RepliesStep(s, p, es[0]);
    if es[0].ServerStep? {
      ServerKeepsAhead(s, p);
      ServerBringsNearer(s, p);
    } else {
      OthersKeepDistance(s, p, es[0]);
      OthersKeepAhead(s, p, es[0]);
    }
    if Token(n, p) != [] {
      RequestIsAnswered(n, p, es[1..]);
    }
  }

  lemma RepliesStep(s: Echo, p: int, e: Event)
    requires Enabled(s, e) && p in s.clients
    ensures p in Next(s, e).clients && Replies(Next(s, e).clients[p]) >= Replies(s.clients[p])
  {
  }

  /** Some process can bring such a request nearer without anybody's input. */
  lemma AnsweringStep(s: Echo, p: int) returns (e: Event)
    requires Inv(s) && p in s.clients && Token(s, p) != [] && !TermAhead(s, p)
    ensures Internal(e) && Enabled(s, e) && Inv(Next(s, e)) && Distance(s, p) > 0
    ensures var n := Next(s, e);
            p in n.clients &&
            if Token(n, p) == [] then Replies(n.clients[p]) > Replies(s.clients[p])
            else !TermAhead(n, p) &&
                 (Distance(n, p) < Distance(s, p) || (Distance(n, p) == Distance(s, p) && Pending(n) < Pending(s)))
  {
    DistancePositive(s, p);
    ServerPutNeverBlocks(s);
    UptoFrom(s.smc.queue, p);
    if ServerEnabled(s) {
      e := ServerStep;
      ServerKeepsAhead(s, p);
      ServerBringsNearer(s, p);
    } else {
      e := PendingMoves(s);
      OthersKeepDistance(s, p, e);
      OthersKeepAhead(s, p, e);
    }
    NextKeepsInv(s, e);
    RepliesStep(s, p, e);
  }

  /** Such a request can always be answered without anybody's further input. */
  lemma {:induction false} AnsweringRun(s: Echo, p: int) returns (es: seq<Event>)
    requires Inv(s) && p in s.clients && Token(s, p) != [] && !TermAhead(s, p)
    ensures IsRun(s, es) && (forall i :: 0 <= i < |es| ==> Internal(es[i]))
    ensures p in Run(s, es).clients && Replies(Run(s, es).clients[p]) > Replies(s.clients[p])
    decreases Distance(s, p), Pending(s)
  {
    var e := AnsweringStep(s, p);
    var n := Next(s, e);
    RepliesStep(s, p, e);
    var rest := [];
    if Token(n, p) != [] {
      rest := AnsweringRun(n, p);
    }
    es := [e] + rest;
    assert es[1..] == rest;
  }

  ghost predicate CanBeAnswered(s: Echo, p: int)
    requires p in s.clients
  {
    exists es :: IsRun(s, es) && p in Run(s, es).clients && Replies(Run(s, es).clients[p]) > Replies(s.clients[p])
  }

  /** An outstanding request can still be answered if and only if no terminator is ahead of it. */
  lemma AnsweredExactly(s: Echo, p: int)
    requires Inv(s) && p in s.clients && Token(s, p) != []
    ensures CanBeAnswered(s, p) <==> !TermAhead(s, p)
  {
    if TermAhead(s, p) {
      forall es | IsRun(s, es)
        ensures !(p in Run(s, es).clients && Replies(Run(s, es).clients[p]) > Replies(s.clients[p]))
      {
        BehindTermNeverAnswered(s, p, es);
      }
    } else {
      var es := AnsweringRun(s, p);
    }
  }

  // ---------------------------------------------------------------- after the stop

  lemma EndedStep(s: Echo, p: int, e: Event)
    requires Ended(s.server) && p in s.clients && Enabled(s, e) && Fine(s, p)
    ensures Ended(Next(s, e).server) && p in Next(s, e).clients
    ensures Replies(Next(s, e).clients[p]) == Replies(s.clients[p])
  {
  }

  /** Once the server has left its loop, no client gets a further reply, whatever it still puts into
      the server's channel: it receives at most what has been put for it already. */
  lemma {:induction false} EndedAnswersNobody(s: Echo, p: int, es: seq<Event>)
    requires Inv(s) && Ended(s.server) && p in s.clients && IsRun(s, es)
    ensures p in Run(s, es).clients && Replies(Run(s, es).clients[p]) == Replies(s.clients[p])
    ensures |Run(s, es).clients[p].received| <= Replies(s.clients[p])
    decreases |es|
  {
    if es != [] {
      assert Fine(s, p);
      EndedStep(s, p, es[0]);
      NextKeepsInv(s, es[0]);
      EndedAnswersNobody(Next(s, es[0]), p, es[1..]);
    }
  }

  /** ... and a client that waits for a reply that has not been put stays as it is for ever. */
  lemma {:induction false} EndedStrands(s: Echo, p: int, es: seq<Event>)
    requires Inv(s) && Ended(s.server) && p in s.clients && IsRun(s, es)
    requires s.clients[p].phase.Awaiting? && Token(s, p) != []
    ensures p in Run(s, es).clients && Run(s, es).clients[p] == s.clients[p]
    decreases |es|
  {
    if es != [] {
      assert Fine(s, p);
      NextKeepsInv(s, es[0]);
      if es[0].ServerStep? {
        ServerKeepsAhead(s, p);
      } else {
        OthersKeepDistance(s, p, es[0]);
      }
      EndedStrands(Next(s, es[0]), p, es[1..]);
    }
  }

  /** A client can connect until the channel is destroyed, which is a step after the loop is left; then
      it closes. */
  lemma ConnectsUntilDestroyed(s: Echo, p: int)
    requires s.server.Got? && IsTermination(s.server.msg) && p in s.clients && s.clients[p].phase.Created?
    ensures var left := Next(s, ServerStep);
            && Enabled(left, ClientStep(p)) && Next(left, ClientStep(p)).clients[p].phase.Ready?
            && Enabled(left, ServerStep)
            && var destroyed := Next(left, ServerStep);
               Enabled(destroyed, ClientStep(p)) && Next(destroyed, ClientStep(p)).clients[p].phase.Closed?
  {
  }

  /** A client that had not connected when the server destroyed its channel never sends anything. */
  lemma {:induction false} LateClientNeverSends(s: Echo, p: int, es: seq<Event>)
    requires s.server.Stopped? && IsRun(s, es)
    requires p in s.clients ==> s.clients[p].sent == [] && (s.clients[p].phase.Created? || s.clients[p].phase.Closed?)
    ensures var end := Run(s, es);
            p in end.clients ==>
              end.clients[p].sent == [] && (end.clients[p].phase.Created? || end.clients[p].phase.Closed?)
    decreases |es|
  {
    if es != [] {
      LateClientNeverSends(Next(s, es[0]), p, es[1..]);
    }
  }

  /** The protocol with one client, 7, and no reply under way. */
  function Single(pid: int, smc: Spec.Chan<Msg>, v: Server, phase: ClientPhase, sent: seq<string>,
                  w: nat, q: nat): Echo
  {
    Echo(pid, smc, v, map[7 := Client(phase, Spec.Chan(REPLY_CAPACITY, 0, []), sent, [])], w, q)
  }

  /** `es` leads from the start to `s`. */
  ghost predicate LeadsTo(pid: int, es: seq<Event>, s: Echo) {
    IsRun(Start(pid), es) && Run(Start(pid), es) == s
  }

  lemma Lead(pid: int, es: seq<Event>, s: Echo, e: Event, n: Echo) returns (longer: seq<Event>)
    requires LeadsTo(pid, es, s) && Enabled(s, e) && n == Next(s, e)
    ensures LeadsTo(pid, longer, n)
  {
    RunOneMore(Start(pid), es, e);
    longer := es + [e];
  }

  /** The client has waited for space; a terminator then copies its message in first. */
  lemma LeadToOvertaken(pid: int) returns (es: seq<Event>)
    ensures LeadsTo(pid, es, Single(pid, Spec.Chan(6, 0, [Termination()]), Idle, HasSpace("a"), [], 0, 1))
  {
    assert Strip("a\n") == "a";
    var full := Spec.Chan(SERVER_CAPACITY, 0, []);
    var s0, s1 := Single(pid, full, Idle, Created, [], 0, 0), Single(pid, full, Idle, Ready, [], 0, 0);
    var s2 := Single(pid, full, Idle, Sending("a"), [], 0, 0);
    var s3 := Single(pid, Spec.Chan(7, 0, []), Idle, HasSpace("a"), [], 0, 0);
    var s4 := s3.(smc := Spec.Chan(6, 0, []), termWaited := 1);
    es := Lead(pid, [], Start(pid), Create(7), s0);
    es := Lead(pid, es, s0, ClientStep(7), s1);
    es := Lead(pid, es, s1, Type(7, "a\n"), s2);
    es := Lead(pid, es, s2, ClientStep(7), s3);
    es := Lead(pid, es, s3, TermStart, s4);
    es := Lead(pid, es, s4, TermCopy, s4.(smc := Spec.Chan(6, 0, [Termination()]), termWaited := 0, termPut := 1));
  }

  /** Client and terminator complete their puts, and the server takes the termination message. */
  lemma LeadToStop(pid: int) returns (es: seq<Event>)
    ensures LeadsTo(pid, es, Single(pid, Spec.Chan(7, 1, [Msg(7, "a", 7, 0)]), Stopped, Awaiting("a"), ["a"], 0, 0))
  {
    var request := Msg(7, "a", 7, 0);
    es := LeadToOvertaken(pid);
    var s0 := Single(pid, Spec.Chan(6, 0, [Termination()]), Idle, HasSpace("a"), [], 0, 1);
    var s1 := Single(pid, Spec.Chan(6, 0, [Termination(), request]), Idle, Sent("a"), ["a"], 0, 1);
    var s2 := Single(pid, Spec.Chan(6, 1, [Termination(), request]), Idle, Awaiting("a"), ["a"], 0, 1);
    var s3 := s2.(smc := Spec.Chan(6, 2, [Termination(), request]), termPut := 0);
    var s4 := s3.(smc := Spec.Chan(6, 1, [Termination(), request]), server := Waited);
    var s5 := s3.(smc := Spec.Chan(6, 1, [request]), server := Took(Termination()));
    var s6 := s3.(smc := Spec.Chan(7, 1, [request]), server := Got(Termination()));
    assert s0.smc.queue + [request] == s1.smc.queue && s0.clients[7].sent + ["a"] == s1.clients[7].sent;
    es := Lead(pid, es, s0, ClientStep(7), s1);
    es := Lead(pid, es, s1, ClientStep(7), s2);
    es := Lead(pid, es, s2, TermPost, s3);
    es := Lead(pid, es, s3, ServerStep, s4);
    es := Lead(pid, es, s4, ServerStep, s5);
    es := Lead(pid, es, s5, ServerStep, s6);
    es := Lead(pid, es, s6, ServerStep, s6.(server := Leaving));
    es := Lead(pid, es, s6.(server := Leaving), ServerStep, s6.(server := Stopped));
  }

  /** A stranded client: it is at its prompt, types a line and has its space before any terminator
      has; the server stops without its request, and it waits for its reply for ever. */
  lemma StrandedClient(pid: int) returns (es: seq<Event>)
    ensures IsRun(Start(pid), es)
    ensures var s := Run(Start(pid), es);
            && s.server.Stopped? && 7 in s.clients
            && s.clients[7].phase == Awaiting("a") && s.clients[7].sent == ["a"]
            && forall more :: IsRun(s, more) ==>
                 7 in Run(s, more).clients && Run(s, more).clients[7] == s.clients[7]
  {
    es := LeadToStop(pid);
    var s := Single(pid, Spec.Chan(7, 1, [Msg(7, "a", 7, 0)]), Stopped, Awaiting("a"), ["a"], 0, 0);
    StartHasInv(pid);
    RunKeepsInv(Start(pid), es);
    assert Token(s, 7) == [Msg(7, "a", 7, 0)];
    forall more | IsRun(s, more) ensures 7 in Run(s, more).clients && Run(s, more).clients[7] == s.clients[7] {
      EndedStrands(s, 7, more);
    }
  }
}
