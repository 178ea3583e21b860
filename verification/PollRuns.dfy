/** The poll echo server over many turns of its event loop: what a run keeps, and a run in which a
    client is read that poll never reported. */
module PollRuns {
  import opened PollTables

  /** What one turn gets from outside: the revents poll writes into the live slots, the count it
      returns, the descriptor accept would return, and what the clients do. */
  datatype Input = Input(revents: seq<(bool, bool)>, nready: int, conn: int, io: Io)

  function Polled(live: seq<Slot>, revents: seq<(bool, bool)>): (r: seq<Slot>)
    requires |revents| == |live|
    ensures |r| == |live| && forall k :: 0 <= k < |r| ==> r[k] == Slot(live[k].fd, revents[k].0, revents[k].1)
  {
    seq(|live|, k requires 0 <= k < |live| => Slot(live[k].fd, revents[k].0, revents[k].1))
  }

  /** The turn, with the dead slots as they are: poll does not write them. */
  function TurnOf(t: Table, u: Input): Result
    requires 2 <= |t.live| == |u.revents|
  {
    Pass(Table(Polled(t.live, u.revents), t.dead), u.nready, u.conn, u.io)
  }

  predicate GoesOn(t: Table, u: Input) {
    2 <= |t.live| == |u.revents| && TurnOf(t, u).Scanned? && !TurnOf(t, u).scan.failed
  }

  function After(t: Table, u: Input): Table
    requires GoesOn(t, u)
  {
    Table(TurnOf(t, u).scan.slots, TurnOf(t, u).dead)
  }

  predicate IsRun(t: Table, us: seq<Input>)
    decreases |us|
  {
    us == [] || (GoesOn(t, us[0]) && IsRun(After(t, us[0]), us[1..]))
  }

  function Run(t: Table, us: seq<Input>): Table
    requires IsRun(t, us)
    decreases |us|
  {
    if us == [] then t else Run(After(t, us[0]), us[1..])
  }

  /** The descriptors that entered the table, and those that were closed, in order. */
  function Entered(t: Table, us: seq<Input>): seq<int>
    requires IsRun(t, us)
    decreases |us|
  {
    if us == [] then []
    else (if us[0].revents[1].0 && Room(t) then [us[0].conn] else []) + Entered(After(t, us[0]), us[1..])
  }

  function Closed(t: Table, us: seq<Input>): seq<int>
    requires IsRun(t, us)
    decreases |us|
  {
    if us == [] then [] else TurnOf(t, us[0]).scan.closed + Closed(After(t, us[0]), us[1..])
  }

  lemma {:induction false} PolledTimes(live: seq<Slot>, revents: seq<(bool, bool)>, fd: int)
    requires |revents| == |live|
    ensures Times(Polled(live, revents), fd) == Times(live, fd)
  {
    if live != [] {
      PolledTimes(live[1..], revents[1..], fd);
      assert Polled(live, revents)[1..] == Polled(live[1..], revents[1..]);
    }
  }

  lemma {:induction false} OccursConcat(a: seq<int>, b: seq<int>, fd: int)
    ensures Occurs(a + b, fd) == Occurs(a, fd) + Occurs(b, fd)
  {
    if a == [] {
      assert a + b == b;
    } else {
      OccursConcat(a[1..], b, fd);
      assert (a + b)[1..] == a[1..] + b;
    }
  }

  /** Over any run, whatever poll reports and however stale the dead slots are: the table holds the
      clients it began with and those that entered, less those closed; and the array keeps its size,
      standard input and the listening socket. */
  lemma {:induction false} RunConserves(t: Table, us: seq<Input>, fd: int)
    requires 2 <= |t.live| && IsRun(t, us)
    ensures var end := Run(t, us);
            && Times(end.live, fd) + Occurs(Closed(t, us), fd) == Times(t.live, fd) + Occurs(Entered(t, us), fd)
            && |end.live| + |end.dead| == |t.live| + |t.dead|
            && 2 <= |end.live| && end.live[0].fd == t.live[0].fd && end.live[1].fd == t.live[1].fd
    decreases |us|
  {
    if us != [] {
      var u := us[0];
      var n := After(t, u);
      var polled := Table(Polled(t.live, u.revents), t.dead);
      PolledTimes(t.live, u.revents, fd);
      PassConserves(polled, u.nready, u.conn, u.io, fd);
      assert n.live[0] == n.live[..2][0] == polled.live[0] && n.live[1] == n.live[..2][1] == polled.live[1];
      RunConserves(n, us[1..], fd);
      OccursConcat(TurnOf(t, u).scan.closed, Closed(n, us[1..]), fd);
      OccursConcat(if u.revents[1].0 && Room(t) then [u.conn] else [], Entered(n, us[1..]), fd);
    }
  }

  // ---------------------------------------------------------------- who is handled

  /** The turn handled every client as often as poll reported it, and nobody else. */
  ghost predicate Exact(t: Table, u: Input)
    requires GoesOn(t, u)
  {
    forall fd :: Occurs(TurnOf(t, u).scan.handled, fd) == TimesReady(Polled(t.live, u.revents)[2..], fd)
  }

  /** poll's count is right, and if a client enters, its descriptor is new and its slot is harmless:
      clean, or at most one event is counted beside the connection and it is a client's. */
  predicate Sound(t: Table, u: Input)
    requires GoesOn(t, u)
  {
    var live := Polled(t.live, u.revents);
    && u.nready == CountReady(live)
    && (live[1].norm && Room(t) ==> Times(live, u.conn) == 0 && HarmlessSlot(live, t.dead[0]))
  }

  ghost predicate AllSound(t: Table, us: seq<Input>)
    requires IsRun(t, us)
    decreases |us|
  {
    us == [] || (Sound(t, us[0]) && AllSound(After(t, us[0]), us[1..]))
  }

  ghost predicate AllExact(t: Table, us: seq<Input>)
    requires IsRun(t, us)
    decreases |us|
  {
    us == [] || (Exact(t, us[0]) && AllExact(After(t, us[0]), us[1..]))
  }

  lemma SoundIsExact(t: Table, u: Input)
    requires GoesOn(t, u) && Sound(t, u)
    ensures Exact(t, u)
  {
    var polled := Table(Polled(t.live, u.revents), t.dead);
    PassIsHarmless(polled, u.conn, u.io);
  }

  /** Over a run in which every turn is sound, every turn handles exactly the clients reported. */
  lemma {:induction false} RunIsExact(t: Table, us: seq<Input>)
    requires IsRun(t, us) && AllSound(t, us)
    ensures AllExact(t, us)
    decreases |us|
  {
    if us != [] {
      SoundIsExact(t, us[0]);
      RunIsExact(After(t, us[0]), us[1..]);
    }
  }

  // ---------------------------------------------------------------- a client that poll did not report

  function Idle(fd: int): Slot { Slot(fd, false, false) }

  /** Nobody has anything to say but the client `quits`, which leaves. */
  function Leaves(quits: int): Io { fd => if fd == quits then Close else Keep }

  const NOBODY := (false, false)
  const READY := (true, false)

  /** A table without clients, with three clean slots and any others. */
  function NoClients(rest: seq<Slot>): Table {
    Table([Idle(0), Idle(3)], [Idle(0), Idle(0), Idle(0)] + rest)
  }

  /** Clients 10, 11 and 12 after the turn that accepted the last of them. */
  function ThreeClients(rest: seq<Slot>): Table {
    Table([Idle(0), Slot(3, true, false), Idle(10), Idle(11), Idle(12)], rest)
  }

  /** Client 12 alone is ready, and leaves. */
  function FirstTurn(): Input {
    Input([NOBODY, NOBODY, NOBODY, NOBODY, READY], 1, -1, Leaves(12))
  }

  /** A client 13 connects, and 10 and 11 are ready; 10 leaves. */
  function SecondTurn(): Input {
    Input([NOBODY, READY, READY, READY], 3, 13, Leaves(10))
  }

  lemma ThreeClientsConnect(rest: seq<Slot>) returns (us: seq<Input>)
    ensures IsRun(NoClients(rest), us) && Run(NoClients(rest), us) == ThreeClients(rest)
  {
    var start := NoClients(rest);
    var u1 := Input([NOBODY, READY], 1, 10, Leaves(0));
    var u2 := Input([NOBODY, READY, NOBODY], 1, 11, Leaves(0));
    var u3 := Input([NOBODY, READY, NOBODY, NOBODY], 1, 12, Leaves(0));
    var L := Slot(3, true, false);
    var t1 := Table([Idle(0), L, Idle(10)], [Idle(0), Idle(0)] + rest);
    var t2 := Table([Idle(0), L, Idle(10), Idle(11)], [Idle(0)] + rest);
    var t3 := ThreeClients(rest);
    assert Polled(start.live, u1.revents) == [Idle(0), L];
    assert After(start, u1) == t1;
    assert Polled(t1.live, u2.revents) == [Idle(0), L, Idle(10)];
    assert After(t1, u2) == t2;
    assert Polled(t2.live, u3.revents) == [Idle(0), L, Idle(10), Idle(11)];
    assert After(t2, u3) == t3;
    us := [u1, u2, u3];
    assert us[1..] == [u2, u3] && us[1..][1..] == [u3] && us[1..][1..][1..] == [];
    assert IsRun(t2, [u3]) && Run(t2, [u3]) == t3;
    assert IsRun(t1, [u2, u3]) && Run(t1, [u2, u3]) == t3;
  }

  /** The slot that dies in the first turn keeps its revents. */
  lemma SlotDiesReady(rest: seq<Slot>)
    ensures GoesOn(ThreeClients(rest), FirstTurn())
    ensures After(ThreeClients(rest), FirstTurn()) ==
            Table([Idle(0), Idle(3), Idle(10), Idle(11)], [Slot(12, true, false)] + rest)
  {
    var live := Polled(ThreeClients(rest).live, FirstTurn().revents);
    assert live == [Idle(0), Idle(3), Idle(10), Idle(11), Slot(12, true, false)];
    var io := Leaves(12);
    assert Remove(live, 4) == [Idle(0), Idle(3), Idle(10), Idle(11)];
    assert ScanFrom(live, 4, 1, io) == Scan(Remove(live, 4), [12], [12], false);
    assert Dying(live, 4, 1, io) == [Slot(12, true, false)];
    assert ScanFrom(live, 2, 1, io) == ScanFrom(live, 3, 1, io) == ScanFrom(live, 4, 1, io);
    assert Dying(live, 2, 1, io) == Dying(live, 3, 1, io) == Dying(live, 4, 1, io);
  }

  /** The live slots of the second turn once client 13 is in. */
  function GrownTable(): seq<Slot> {
    [Idle(0), Slot(3, true, false), Slot(10, true, false), Slot(11, true, false), Slot(13, true, false)]
  }

  /** The scan of the second turn: client 10 leaves, and the new client 13 is moved under the scan. */
  lemma SecondScan(io: Io)
    requires io == Leaves(10)
    ensures ScanFrom(GrownTable(), 2, 2, io).handled == [10, 13] && !ScanFrom(GrownTable(), 2, 2, io).failed
  {
    var grown := GrownTable();
    var moved := [Idle(0), Slot(3, true, false), Slot(13, true, false), Slot(11, true, false)];
    assert Remove(grown, 2) == moved;
    assert io(10) == Close && io(13) == Keep;
    var end := ScanFrom(moved, 3, 0, io);
    assert end == Scan(moved, [], [], false);
    assert ScanFrom(moved, 2, 1, io) == end.(handled := [13] + end.handled);
    assert ScanFrom(moved, 2, 1, io).handled == [13];
  }

  lemma {:induction false} CountsOfCons(x: Slot, rest: seq<Slot>, fd: int)
    ensures CountReady([x] + rest) == (if Ready(x) then 1 else 0) + CountReady(rest)
    ensures TimesReady([x] + rest, fd) == (if Ready(x) && x.fd == fd then 1 else 0) + TimesReady(rest, fd)
    ensures Times([x] + rest, fd) == (if x.fd == fd then 1 else 0) + Times(rest, fd)
  {
    assert ([x] + rest)[1..] == rest;
  }

  lemma CountsOfFour(a: Slot, b: Slot, c: Slot, d: Slot, fd: int)
    ensures CountReady([a, b, c, d]) == CountReady([a]) + CountReady([b]) + CountReady([c]) + CountReady([d])
    ensures TimesReady([a, b, c, d], fd) ==
            TimesReady([a], fd) + TimesReady([b], fd) + TimesReady([c], fd) + TimesReady([d], fd)
    ensures Times([a, b, c, d], fd) == Times([a], fd) + Times([b], fd) + Times([c], fd) + Times([d], fd)
  {
    assert [a, b, c, d] == [a] + ([b] + ([c] + [d]));
    CountsOfCons(a, [b] + ([c] + [d]), fd);
    CountsOfCons(b, [c] + [d], fd);
    CountsOfCons(c, [d], fd);
  }

  /** Left-over revents, with poll's count correct in both turns: client 13, which has just connected
      and which poll did not look at, is read, and client 11, which poll reported, is not. */
  lemma StaleRun(rest: seq<Slot>)
    ensures IsRun(ThreeClients(rest), [FirstTurn(), SecondTurn()])
    ensures var t := After(ThreeClients(rest), FirstTurn());
            && FirstTurn().nready == CountReady(Polled(ThreeClients(rest).live, FirstTurn().revents))
            && SecondTurn().nready == CountReady(Polled(t.live, SecondTurn().revents))
            && TurnOf(t, SecondTurn()).scan.handled == [10, 13]
            && Times(t.live, 13) == 0 && TimesReady(Polled(t.live, SecondTurn().revents), 11) == 1
  {
    SlotDiesReady(rest);
    var t := After(ThreeClients(rest), FirstTurn());
    var first := Polled(ThreeClients(rest).live, FirstTurn().revents);
    assert first == [Idle(0)] + [Idle(3), Idle(10), Idle(11), Slot(12, true, false)];
    CountsOfCons(Idle(0), [Idle(3), Idle(10), Idle(11), Slot(12, true, false)], 0);
    CountsOfFour(Idle(3), Idle(10), Idle(11), Slot(12, true, false), 0);
    var live := Polled(t.live, SecondTurn().revents);
    assert live == [Idle(0), Slot(3, true, false), Slot(10, true, false), Slot(11, true, false)];
    CountsOfFour(live[0], live[1], live[2], live[3], 11);
    CountsOfFour(t.live[0], t.live[1], t.live[2], t.live[3], 13);
    assert Accepted(Table(live, t.dead), 13).live == live + [Slot(13, true, false)];
    assert live + [Slot(13, true, false)] == GrownTable();
    SecondScan(SecondTurn().io);
    assert GoesOn(t, SecondTurn());
    assert [FirstTurn(), SecondTurn()][1..] == [SecondTurn()] && [SecondTurn()][1..] == [];
  }
}
