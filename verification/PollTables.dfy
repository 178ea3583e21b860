/** One pass of the event loop of the poll echo server (21-async/01-poll): the client table is an
    array scanned in place, with the last slot moved over a removed one, the index rolled back,
    and an early exit when the ready count is used up. Results of poll, accept, read and write are
    inputs. */
module PollTables {

  /** `norm` is the POLLRDNORM bit of revents, `other` any further bit. */
  datatype Slot = Slot(fd: int, norm: bool, other: bool)

  /** What reading from a ready client and echoing comes to: keep it, close it (end of input or
      "quit"), or an error that ends the process. */
  datatype Outcome = Keep | Close | Failure

  type Io = int -> Outcome

  predicate Ready(s: Slot) { s.norm || s.other }

  /** `slots` are the nclients live slots; `handled` and `closed` are descriptors in order. */
  datatype Scan = Scan(slots: seq<Slot>, handled: seq<int>, closed: seq<int>, failed: bool)

  function Remove(slots: seq<Slot>, i: nat): (r: seq<Slot>)
    requires i < |slots|
    ensures |r| == |slots| - 1
  {
    slots[i := slots[|slots| - 1]][..|slots| - 1]
  }

  function ScanFrom(slots: seq<Slot>, i: nat, nready: int, io: Io): Scan
    decreases |slots| - i
  {
    if nready <= 0 || i >= |slots| then Scan(slots, [], [], false)
    else if !Ready(slots[i]) then ScanFrom(slots, i + 1, nready, io)
    else
      var fd := slots[i].fd;
      match io(fd)
      case Failure => Scan(slots, [fd], [], true)
      case Keep =>
        var rest := ScanFrom(slots, i + 1, nready - 1, io);
        rest.(handled := [fd] + rest.handled)
      case Close =>
        var rest := ScanFrom(Remove(slots, i), i, nready - 1, io);
        rest.(handled := [fd] + rest.handled, closed := [fd] + rest.closed)
  }

  /** The slots the scan gives up at the end of the live part, in array order. They keep what they
      held: a dead slot still has the descriptor and the revents of its last user. */
  function Dying(slots: seq<Slot>, i: nat, nready: int, io: Io): seq<Slot>
    decreases |slots| - i
  {
    if nready <= 0 || i >= |slots| then []
    else if !Ready(slots[i]) then Dying(slots, i + 1, nready, io)
    else
      match io(slots[i].fd)
      case Failure => []
      case Keep => Dying(slots, i + 1, nready - 1, io)
      case Close => Dying(Remove(slots, i), i, nready - 1, io) + [slots[|slots| - 1]]
  }

  // ---------------------------------------------------------------- what the scan must do

  /** How often descriptor `fd` is in the table. */
  function Times(slots: seq<Slot>, fd: int): nat {
    if slots == [] then 0 else (if slots[0].fd == fd then 1 else 0) + Times(slots[1..], fd)
  }

  /** How often `fd` is in the table and ready. */
  function TimesReady(slots: seq<Slot>, fd: int): nat {
    if slots == [] then 0
    else (if Ready(slots[0]) && slots[0].fd == fd then 1 else 0) + TimesReady(slots[1..], fd)
  }

  function CountReady(slots: seq<Slot>): nat {
    if slots == [] then 0 else (if Ready(slots[0]) then 1 else 0) + CountReady(slots[1..])
  }

  function Occurs(fds: seq<int>, fd: int): nat {
    if fds == [] then 0 else (if fds[0] == fd then 1 else 0) + Occurs(fds[1..], fd)
  }

  function ClosedOf(fds: seq<int>, io: Io): seq<int> {
    if fds == [] then []
    else (if io(fds[0]) == Close then [fds[0]] else []) + ClosedOf(fds[1..], io)
  }

  lemma {:induction false} Concat(a: seq<Slot>, b: seq<Slot>, fd: int)
    ensures Times(a + b, fd) == Times(a, fd) + Times(b, fd)
    ensures TimesReady(a + b, fd) == TimesReady(a, fd) + TimesReady(b, fd)
    ensures CountReady(a + b) == CountReady(a) + CountReady(b)
  {
    if a == [] {
      assert a + b == b;
    } else {
      Concat(a[1..], b, fd);
      assert (a + b)[1..] == a[1..] + b;
    }
  }

  lemma RemoveShape(slots: seq<Slot>, i: nat)
    requires i < |slots|
    ensures Remove(slots, i)[..i] == slots[..i]
    ensures i + 1 == |slots| ==> Remove(slots, i) == slots[..i] && slots[i + 1..] == []
    ensures i + 1 < |slots| ==>
              Remove(slots, i)[i..] == [slots[|slots| - 1]] + slots[i + 1..|slots| - 1] &&
              slots[i + 1..] == slots[i + 1..|slots| - 1] + [slots[|slots| - 1]]
  {
  }

  lemma TimesFrom(slots: seq<Slot>, i: nat, fd: int)
    requires i <= |slots|
    ensures Times(slots, fd) == Times(slots[..i], fd) + Times(slots[i..], fd)
    ensures i < |slots| ==>
              Times(slots[i..], fd) == (if slots[i].fd == fd then 1 else 0) + Times(slots[i + 1..], fd)
  {
    assert slots == slots[..i] + slots[i..];
    Concat(slots[..i], slots[i..], fd);
    if i < |slots| {
      assert slots[i..][1..] == slots[i + 1..];
    }
  }

  /** Moving the last slot over slot i drops just slot i: the moved one is scanned next. */
  lemma RemoveDropsOne(slots: seq<Slot>, i: nat, fd: int)
    requires i < |slots|
    ensures var r := Remove(slots, i);
            && Times(slots, fd) == Times(r, fd) + (if slots[i].fd == fd then 1 else 0)
            && TimesReady(r[i..], fd) == TimesReady(slots[i + 1..], fd)
            && CountReady(r[i..]) == CountReady(slots[i + 1..])
            && r[..i] == slots[..i]
  {
    RemoveShape(slots, i);
    TimesFrom(slots, i, fd);
    TimesFrom(Remove(slots, i), i, fd);
    if i + 1 < |slots| {
      Concat(slots[i + 1..|slots| - 1], [slots[|slots| - 1]], fd);
      Concat([slots[|slots| - 1]], slots[i + 1..|slots| - 1], fd);
    }
  }

  /** `r` lost no client but those it closed, and did not touch the slots before i. */
  ghost predicate Kept(slots: seq<Slot>, i: nat, r: Scan, fd: int)
    requires i <= |slots|
  {
    && Times(r.slots, fd) + Occurs(r.closed, fd) == Times(slots, fd)
    && i <= |r.slots| && r.slots[..i] == slots[..i]
  }

  lemma SkipKept(slots: seq<Slot>, i: nat, r: Scan, fd: int)
    requires i < |slots| && Kept(slots, i + 1, r, fd)
    ensures Kept(slots, i, r, fd)
  {
    assert r.slots[..i] == r.slots[..i + 1][..i] == slots[..i + 1][..i];
  }

  lemma CloseKept(slots: seq<Slot>, i: nat, rest: Scan, r: Scan, fd: int)
    requires i < |slots| && Kept(Remove(slots, i), i, rest, fd)
    requires r.slots == rest.slots && r.closed == [slots[i].fd] + rest.closed
    ensures Kept(slots, i, r, fd)
  {
    RemoveDropsOne(slots, i, fd);
    OccursCons(slots[i].fd, rest.closed, fd);
  }

  /** `r` handled each ready slot from i on exactly once (or stopped at a failure), and nobody else. */
  ghost predicate HandledOnce(slots: seq<Slot>, i: nat, r: Scan, fd: int)
    requires i <= |slots|
  {
    && (!r.failed ==> Occurs(r.handled, fd) == TimesReady(slots[i..], fd))
    && Occurs(r.handled, fd) <= TimesReady(slots[i..], fd)
  }

  /** Whatever the ready count and the revents: the scan loses no client but those it closes. */
  lemma {:induction false} ScanConserves(slots: seq<Slot>, i: nat, nready: int, io: Io, fd: int)
    requires i <= |slots|
    ensures Kept(slots, i, ScanFrom(slots, i, nready, io), fd)
    decreases |slots| - i
  {
    if nready > 0 && i < |slots| {
      var r := ScanFrom(slots, i, nready, io);
      if !Ready(slots[i]) {
        ScanConserves(slots, i + 1, nready, io, fd);
        SkipKept(slots, i, r, fd);
      } else if io(slots[i].fd) == Keep {
        ScanConserves(slots, i + 1, nready - 1, io, fd);
        SkipKept(slots, i, r, fd);
      } else if io(slots[i].fd) == Close {
        ScanConserves(Remove(slots, i), i, nready - 1, io, fd);
        CloseKept(slots, i, ScanFrom(Remove(slots, i), i, nready - 1, io), r, fd);
      }
    }
  }

  /** Given at least as many ready events as ready slots, the scan handles every descriptor as often
      as it is ready, despite swap-remove and early exit. */
  lemma {:induction false} ScanIsExact(slots: seq<Slot>, i: nat, nready: int, io: Io, fd: int)
    requires i <= |slots| && nready >= CountReady(slots[i..])
    ensures HandledOnce(slots, i, ScanFrom(slots, i, nready, io), fd)
    decreases |slots| - i
  {
    if nready <= 0 || i == |slots| {
      NoneReady(slots[i..], fd);
    } else {
      var x := slots[i].fd;
      assert slots[i..][1..] == slots[i + 1..];
      if !Ready(slots[i]) {
        ScanIsExact(slots, i + 1, nready, io, fd);
      } else if io(x) == Keep {
        ScanIsExact(slots, i + 1, nready - 1, io, fd);
        OccursCons(x, ScanFrom(slots, i + 1, nready - 1, io).handled, fd);
      } else if io(x) == Close {
        RemoveDropsOne(slots, i, fd);
        ScanIsExact(Remove(slots, i), i, nready - 1, io, fd);
        OccursCons(x, ScanFrom(Remove(slots, i), i, nready - 1, io).handled, fd);
      }
    }
  }

  lemma OccursCons(x: int, xs: seq<int>, fd: int)
    ensures Occurs([x] + xs, fd) == (if x == fd then 1 else 0) + Occurs(xs, fd)
  {
    assert ([x] + xs)[1..] == xs;
  }

  lemma {:induction false} NoneReady(slots: seq<Slot>, fd: int)
    requires CountReady(slots) == 0
    ensures TimesReady(slots, fd) == 0
  {
    if slots != [] {
      NoneReady(slots[1..], fd);
    }
  }

  /** The closed descriptors are exactly the handled ones that hung up or said "quit", in order,
      and the scan fails exactly when a handled one fails. */
  lemma {:induction false} ScanClosesRight(slots: seq<Slot>, i: nat, nready: int, io: Io)
    requires i <= |slots|
    ensures var r := ScanFrom(slots, i, nready, io);
            r.closed == ClosedOf(r.handled, io) && (r.failed <==> exists fd :: fd in r.handled && io(fd) == Failure)
    decreases |slots| - i
  {
    if nready > 0 && i < |slots| {
      var r := ScanFrom(slots, i, nready, io);
      var fd := slots[i].fd;
      if !Ready(slots[i]) {
        ScanClosesRight(slots, i + 1, nready, io);
      } else if io(fd) == Failure {
        assert r.handled == [fd] && ClosedOf([fd], io) == ClosedOf([], io);
        assert fd in r.handled;
      } else {
        var next := if io(fd) == Keep then slots else Remove(slots, i);
        var at := if io(fd) == Keep then i + 1 else i;
        ScanClosesRight(next, at, nready - 1, io);
        var rest := ScanFrom(next, at, nready - 1, io);
        assert r.handled == [fd] + rest.handled && r.handled[1..] == rest.handled;
        if rest.failed {
          var bad :| bad in rest.handled && io(bad) == Failure;
          assert bad in r.handled;
        }
      }
    }
  }

  /** Nobody is handled after a client that fails. */
  lemma {:induction false} FailureIsLast(slots: seq<Slot>, i: nat, nready: int, io: Io, j: nat)
    requires i <= |slots| && j < |ScanFrom(slots, i, nready, io).handled|
    ensures var r := ScanFrom(slots, i, nready, io);
            io(r.handled[j]) == Failure <==> r.failed && j == |r.handled| - 1
    decreases |slots| - i
  {
    var fd := slots[i].fd;
    if !Ready(slots[i]) {
      FailureIsLast(slots, i + 1, nready, io, j);
    } else if io(fd) != Failure {
      var next := if io(fd) == Keep then slots else Remove(slots, i);
      var at := if io(fd) == Keep then i + 1 else i;
      var rest := ScanFrom(next, at, nready - 1, io);
      if j > 0 {
        FailureIsLast(next, at, nready - 1, io, j - 1);
      } else {
        ScanClosesRight(next, at, nready - 1, io);
      }
      assert ScanFrom(slots, i, nready, io).handled == [fd] + rest.handled;
    }
  }

  lemma {:induction false} DyingRest(slots: seq<Slot>, i: nat, nready: int, io: Io)
    requires i <= |slots|
    ensures |ScanFrom(slots, i, nready, io).slots| + |Dying(slots, i, nready, io)| == |slots|
    decreases |slots| - i
  {
    if nready > 0 && i < |slots| {
      if !Ready(slots[i]) {
        DyingRest(slots, i + 1, nready, io);
      } else if io(slots[i].fd) == Keep {
        DyingRest(slots, i + 1, nready - 1, io);
      } else if io(slots[i].fd) == Close {
        DyingRest(Remove(slots, i), i, nready - 1, io);
      }
    }
  }

  // ---------------------------------------------------------------- one pass

  /** The array: the nclients live slots, then the dead ones with whatever they hold. */
  datatype Table = Table(live: seq<Slot>, dead: seq<Slot>)

  datatype Result = Exiting | AcceptFailed | Scanned(scan: Scan, dead: seq<Slot>)

  predicate Room(t: Table) { t.dead != [] }

  /** A new client gets the first dead slot. Only the descriptor and the requested events of the
      slot are written, not its revents; a full table stays as it is. */
  function Accepted(t: Table, conn: int): Table {
    if Room(t) then Table(t.live + [t.dead[0].(fd := conn)], t.dead[1..]) else t
  }

  function Scanning(t: Table, nready: int, io: Io): Result {
    Scanned(ScanFrom(t.live, 2, nready, io), Dying(t.live, 2, nready, io) + t.dead)
  }

  /** One turn of the event loop after poll: the live slots have their revents set, `conn` is what
      accept returns. */
  function Pass(t: Table, nready: int, conn: int, io: Io): Result
    requires 2 <= |t.live|
  {
    if t.live[0].norm then Exiting
    else if t.live[1].norm then
      if conn < 0 then AcceptFailed else Scanning(Accepted(t, conn), nready - 1, io)
    else Scanning(t, nready, io)
  }

  /** How often the turn puts fd into the table. */
  function Adds(t: Table, conn: int, fd: int): nat
    requires 2 <= |t.live|
  {
    if t.live[1].norm && Room(t) && conn == fd then 1 else 0
  }

  lemma FirstTwo(slots: seq<Slot>)
    requires 2 <= |slots|
    ensures CountReady(slots) == (if Ready(slots[0]) then 1 else 0) + (if Ready(slots[1]) then 1 else 0) +
                                 CountReady(slots[2..])
  {
    assert slots[1..][1..] == slots[2..];
  }

  lemma AppendIdle(slots: seq<Slot>, x: Slot, fd: int)
    requires 2 <= |slots|
    ensures TimesReady((slots + [x])[2..], fd) ==
            TimesReady(slots[2..], fd) + (if Ready(x) && x.fd == fd then 1 else 0)
    ensures CountReady((slots + [x])[2..]) == CountReady(slots[2..]) + (if Ready(x) then 1 else 0)
    ensures Times(slots + [x], fd) == Times(slots, fd) + (if x.fd == fd then 1 else 0)
  {
    assert (slots + [x])[2..] == slots[2..] + [x];
    Concat(slots[2..], [x], fd);
    Concat(slots, [x], fd);
  }

  /** One pass, whatever poll's count and the left-over revents: the table is the old clients plus
      the accepted one minus the closed ones, the closed ones are the handled ones that hung up, and
      the array keeps its size and its first two slots. */
  lemma PassConserves(t: Table, nready: int, conn: int, io: Io, fd: int)
    requires 2 <= |t.live|
    ensures var res := Pass(t, nready, conn, io);
            res.Scanned? ==>
              var r := res.scan;
              && Times(r.slots, fd) + Occurs(r.closed, fd) == Times(t.live, fd) + Adds(t, conn, fd)
              && r.closed == ClosedOf(r.handled, io)
              && 2 <= |r.slots| && r.slots[..2] == t.live[..2]
              && |r.slots| + |res.dead| == |t.live| + |t.dead|
  {
    if !t.live[0].norm && !(t.live[1].norm && conn < 0) {
      var after := if t.live[1].norm then Accepted(t, conn) else t;
      var k := if t.live[1].norm then nready - 1 else nready;
      if t.live[1].norm && Room(t) {
        AppendIdle(t.live, t.dead[0].(fd := conn), fd);
        assert after.live[..2] == t.live[..2];
      }
      ScanConserves(after.live, 2, k, io, fd);
      DyingRest(after.live, 2, k, io);
      ScanClosesRight(after.live, 2, k, io);
    }
  }

  /** Given a correct ready count and, if a client is appended, no left-over revents in its slot:
      every ready client is handled exactly once, and nobody else. */
  lemma PassIsExact(t: Table, conn: int, io: Io, fd: int)
    requires 2 <= |t.live|
    requires t.live[1].norm && Room(t) ==> !Ready(t.dead[0])
    ensures var res := Pass(t, CountReady(t.live), conn, io);
            res.Scanned? ==>
              (!res.scan.failed ==> Occurs(res.scan.handled, fd) == TimesReady(t.live[2..], fd)) &&
              Occurs(res.scan.handled, fd) <= TimesReady(t.live[2..], fd)
  {
    FirstTwo(t.live);
    if !t.live[0].norm && !(t.live[1].norm && conn < 0) {
      var after := if t.live[1].norm then Accepted(t, conn) else t;
      if t.live[1].norm && Room(t) {
        AppendIdle(t.live, t.dead[0].(fd := conn), fd);
      }
      ScanIsExact(after.live, 2, CountReady(t.live) - if t.live[1].norm then 1 else 0, io, fd);
    }
  }

  lemma {:induction false} OccursIn(fds: seq<int>, fd: int)
    ensures Occurs(fds, fd) > 0 <==> fd in fds
  {
    if fds != [] {
      OccursIn(fds[1..], fd);
    }
  }

  /** Some bit of the revents of one of these slots of fd is set. */
  ghost predicate AnyBitSet(slots: seq<Slot>, fd: int) {
    exists k :: 0 <= k < |slots| && slots[k].fd == fd && (slots[k].norm || slots[k].other)
  }

  lemma {:induction false} TimesReadyIn(slots: seq<Slot>, fd: int)
    ensures TimesReady(slots, fd) > 0 <==> AnyBitSet(slots, fd)
  {
    if slots != [] {
      TimesReadyIn(slots[1..], fd);
      if AnyBitSet(slots[1..], fd) {
        var k :| 0 <= k < |slots[1..]| && slots[1..][k].fd == fd && (slots[1..][k].norm || slots[1..][k].other);
        assert slots[k + 1].fd == fd;
      }
    }
  }

  /** Under the same conditions, and unless a client fails: a client is handled if and only if any bit at
      all of its revents is set. */
  lemma AnyBitIsHandled(t: Table, conn: int, io: Io, fd: int)
    requires 2 <= |t.live|
    requires t.live[1].norm && Room(t) ==> !t.dead[0].norm && !t.dead[0].other
    ensures var res := Pass(t, CountReady(t.live), conn, io);
            res.Scanned? && !res.scan.failed ==> (fd in res.scan.handled <==> AnyBitSet(t.live[2..], fd))
  {
    PassIsExact(t, conn, io, fd);
    TimesReadyIn(t.live[2..], fd);
    var res := Pass(t, CountReady(t.live), conn, io);
    if res.Scanned? {
      OccursIn(res.scan.handled, fd);
    }
  }

  // ---------------------------------------------------------------- left-over revents

  /** The scan of a table with an appended slot handled just the ready clients that poll reported. */
  ghost predicate HandlesReported(slots: seq<Slot>, r: Scan)
    requires 2 <= |slots|
  {
    !r.failed ==> forall fd :: Occurs(r.handled, fd) == TimesReady(slots[2..], fd)
  }

  lemma {:induction false} OneEventStopsEarly(slots: seq<Slot>, i: nat, x: Slot, io: Io, fd: int)
    requires i <= |slots| && CountReady(slots[i..]) == 1
    ensures var r := ScanFrom(slots + [x], i, 1, io);
            !r.failed ==> Occurs(r.handled, fd) == TimesReady(slots[i..], fd)
    decreases |slots| - i
  {
    var t := slots + [x];
    assert slots[i..][1..] == slots[i + 1..] && t[i] == slots[i];
    if !Ready(slots[i]) {
      OneEventStopsEarly(slots, i + 1, x, io, fd);
    } else {
      NoneReady(slots[i + 1..], fd);
      OccursCons(t[i].fd, [], fd);
    }
  }

  /** With two events and a removal, the stale last slot is moved under the scan and handled. */
  lemma {:induction false} StaleIsHandled(slots: seq<Slot>, i: nat, x: Slot, nready: int, io: Io)
    requires i <= |slots| && CountReady(slots[i..]) >= 1 && nready >= 2 && Ready(x)
    requires forall fd :: io(fd) == Close
    ensures Occurs(ScanFrom(slots + [x], i, nready, io).handled, x.fd) >= 1
    ensures !ScanFrom(slots + [x], i, nready, io).failed
    decreases |slots| - i
  {
    var t := slots + [x];
    assert slots[i..][1..] == slots[i + 1..] && t[i] == slots[i];
    if !Ready(slots[i]) {
      StaleIsHandled(slots, i + 1, x, nready, io);
    } else {
      var u := Remove(t, i);
      assert u[i] == x;
      var rest := ScanFrom(u, i, nready - 1, io);
      var last := ScanFrom(Remove(u, i), i, nready - 2, io);
      OccursCons(x.fd, last.handled, x.fd);
      OccursCons(t[i].fd, rest.handled, x.fd);
      ScanClosesRight(t, i, nready, io);
    }
  }

  /** Left-over revents are harmless, whatever the clients do, exactly when the spare slot holds
      none or when at most one event is counted and it belongs to a client. `nready` is the count
      on entry to the scan. */
  lemma StaleRevents(slots: seq<Slot>, spare: Slot, conn: int, nready: int)
    requires 2 <= |slots| && nready >= CountReady(slots[2..]) && Times(slots, conn) == 0
    ensures (forall io: Io :: HandlesReported(slots, ScanFrom(slots + [spare.(fd := conn)], 2, nready, io))) <==>
            (!Ready(spare) || nready == CountReady(slots[2..]) <= 1)
  {
    var x := spare.(fd := conn);
    var t := slots + [x];
    if !Ready(spare) || nready == CountReady(slots[2..]) <= 1 {
      forall io: Io ensures HandlesReported(slots, ScanFrom(t, 2, nready, io)) {
        forall fd | !ScanFrom(t, 2, nready, io).failed
          ensures Occurs(ScanFrom(t, 2, nready, io).handled, fd) == TimesReady(slots[2..], fd)
        {
          AppendIdle(slots, x, fd);
          if !Ready(spare) {
            ScanIsExact(t, 2, nready, io, fd);
          } else if nready == 1 {
            OneEventStopsEarly(slots, 2, x, io, fd);
          } else {
            NoneReady(slots[2..], fd);
          }
        }
      }
    } else {
      TimesFrom(slots, 2, conn);
      NotThere(slots[2..], conn);
      AppendIdle(slots, x, conn);
      if nready > CountReady(slots[2..]) {
        var keep: Io := _ => Keep;
        ScanIsExact(t, 2, nready, keep, conn);
        ScanClosesRight(t, 2, nready, keep);
        assert !HandlesReported(slots, ScanFrom(t, 2, nready, keep));
      } else {
        var close: Io := _ => Close;
        StaleIsHandled(slots, 2, x, nready, close);
        assert !HandlesReported(slots, ScanFrom(t, 2, nready, close));
      }
    }
  }

  /** A dead slot that does no harm if a client enters it in this turn, whoever is ready. */
  predicate HarmlessSlot(live: seq<Slot>, spare: Slot)
    requires 2 <= |live|
  {
    !Ready(spare) || CountReady(live) - 1 == CountReady(live[2..]) <= 1
  }

  /** With poll's count correct, a turn in which a new client enters handles just the clients
      reported, whatever the clients do, if and only if the slot it enters is harmless. */
  lemma PassIsExactly(t: Table, conn: int)
    requires 2 <= |t.live| && !t.live[0].norm && t.live[1].norm && Room(t) && conn >= 0 && Times(t.live, conn) == 0
    ensures (forall io: Io :: HandlesReported(t.live, Pass(t, CountReady(t.live), conn, io).scan)) <==>
            HarmlessSlot(t.live, t.dead[0])
  {
    FirstTwo(t.live);
    StaleRevents(t.live, t.dead[0], conn, CountReady(t.live) - 1);
    var grown, k := t.live + [t.dead[0].(fd := conn)], CountReady(t.live) - 1;
    if HarmlessSlot(t.live, t.dead[0]) {
      forall io: Io ensures HandlesReported(t.live, Pass(t, CountReady(t.live), conn, io).scan) {
        assert HandlesReported(t.live, ScanFrom(grown, 2, k, io));
      }
    } else {
      var io: Io :| !HandlesReported(t.live, ScanFrom(grown, 2, k, io));
      assert !HandlesReported(t.live, Pass(t, CountReady(t.live), conn, io).scan);
    }
  }

  lemma PassIsHarmless(t: Table, conn: int, io: Io)
    requires 2 <= |t.live|
    requires t.live[1].norm && Room(t) ==> Times(t.live, conn) == 0 && HarmlessSlot(t.live, t.dead[0])
    ensures var res := Pass(t, CountReady(t.live), conn, io);
            res.Scanned? ==> HandlesReported(t.live, res.scan)
  {
    if Pass(t, CountReady(t.live), conn, io).Scanned? {
      if t.live[1].norm && Room(t) {
        PassIsExactly(t, conn);
      } else {
        forall fd ensures var r := Pass(t, CountReady(t.live), conn, io).scan;
                          !r.failed ==> Occurs(r.handled, fd) == TimesReady(t.live[2..], fd) {
          PassIsExact(t, conn, io, fd);
        }
      }
    }
  }

  lemma {:induction false} NotThere(slots: seq<Slot>, fd: int)
    requires Times(slots, fd) == 0
    ensures TimesReady(slots, fd) == 0
  {
    if slots != [] {
      NotThere(slots[1..], fd);
    }
  }

  // ---------------------------------------------------------------- a scan under way

  /** The result of a scan of which the part before i is done. */
  ghost function Ongoing(live: seq<Slot>, dead: seq<Slot>, i: nat, nready: int, io: Io,
                         handled: seq<int>, closed: seq<int>): Result
  {
    var rest := ScanFrom(live, i, nready, io);
    Scanned(rest.(handled := handled + rest.handled, closed := closed + rest.closed), Dying(live, i, nready, io) + dead)
  }

  /** One ready client handled, with nothing in sight changed about the result. */
  lemma OngoingHandled(live: seq<Slot>, dead: seq<Slot>, i: nat, nready: int, io: Io,
                       handled: seq<int>, closed: seq<int>)
    requires nready > 0 && i < |live| && Ready(live[i])
    ensures var fd := live[i].fd;
            Ongoing(live, dead, i, nready, io, handled, closed) ==
            match io(fd)
            case Failure => Scanned(Scan(live, handled + [fd], closed, true), dead)
            case Keep => Ongoing(live, dead, i + 1, nready - 1, io, handled + [fd], closed)
            case Close =>
              Ongoing(Remove(live, i), [live[|live| - 1]] + dead, i, nready - 1, io, handled + [fd], closed + [fd])
  {
    var fd := live[i].fd;
    if io(fd) == Keep {
      ListsMove(fd, handled, ScanFrom(live, i + 1, nready - 1, io).handled);
    } else if io(fd) == Close {
      var rest := ScanFrom(Remove(live, i), i, nready - 1, io);
      ListsMove(fd, handled, rest.handled);
      ListsMove(fd, closed, rest.closed);
      var last := live[|live| - 1];
      var dying := Dying(Remove(live, i), i, nready - 1, io);
      assert dying + ([last] + dead) == (dying + [last]) + dead;
    }
  }

  lemma ListsMove(x: int, done: seq<int>, rest: seq<int>)
    ensures done + ([x] + rest) == (done + [x]) + rest
  {
  }

  // ---------------------------------------------------------------- the code

  class PollServer {
    const clients: array<Slot>  // MAX_CLIENTS long
    var nclients: int

    ghost predicate Valid() reads this {
      2 <= nclients <= clients.Length
    }

    ghost function View(): Table
      requires Valid()
      reads this, clients
    {
      Table(clients[..nclients], clients[nclients..])
    }

    /** The array is not initialized: only the first two slots are written, and not their revents. */
    constructor (stdin: int, listening: int, maxClients: nat)
      requires 2 <= maxClients
      ensures Valid() && fresh(clients) && clients.Length == maxClients && nclients == 2
      ensures clients[0].fd == stdin && clients[1].fd == listening
    {
      clients := new Slot[maxClients];
      nclients := 2;
      new;
      clients[0] := clients[0].(fd := stdin);
      clients[1] := clients[1].(fd := listening);
    }

    /** The last live slot is moved over slot i, and dies. */
    method RemoveAt(i: int)
      requires Valid() && 2 <= i < nclients
      modifies this, clients
      ensures Valid() && nclients == old(nclients) - 1
      ensures clients[..nclients] == Remove(old(clients[..nclients]), i)
      ensures clients[nclients..] == [old(clients[nclients - 1])] + old(clients[nclients..])
    {
      nclients := nclients - 1;
      clients[i] := clients[nclients];
    }

    /** The scan over the clients. */
    method Serve(ready: int, io: Io) returns (ghost handled: seq<int>, ghost closed: seq<int>, failed: bool)
      requires Valid()
      modifies this, clients
      ensures Valid()
      ensures Scanned(Scan(View().live, handled, closed, failed), View().dead) == Scanning(old(View()), ready, io)
    {
      handled, closed, failed := [], [], false;
      var nready, i := ready, 2;
      ghost var result := Scanning(View(), nready, io);
      ghost var live, dead := clients[..nclients], clients[nclients..];
      while nready > 0 && i < nclients
        invariant Valid() && 2 <= i <= nclients && clients[..nclients] == live && clients[nclients..] == dead
        invariant Ongoing(live, dead, i, nready, io, handled, closed) == result
        decreases nclients - i
      {
        assert live[i] == clients[i];
        if Ready(clients[i]) {
          var conn := clients[i].fd;
          OngoingHandled(live, dead, i, nready, io, handled, closed);
          match io(conn) {
            case Failure =>
              handled, failed := handled + [conn], true;
              return;
            case Keep =>
            case Close =>
              closed := closed + [conn];
              RemoveAt(i);
              live, dead := Remove(live, i), [live[|live| - 1]] + dead;
              i := i - 1;
          }
          handled := handled + [conn];
          nready := nready - 1;
        }
        i := i + 1;
      }
    }

    /** Entering an accepted connection, or closing it at once if the table is full. */
    method Append(conn: int)
      requires Valid()
      modifies this, clients
      ensures Valid() && View() == Accepted(old(View()), conn)
    {
      if nclients < clients.Length {
        clients[nclients] := clients[nclients].(fd := conn);
        nclients := nclients + 1;
        assert clients[..nclients] == old(clients[..nclients]) + [old(clients[nclients]).(fd := conn)];
        assert clients[nclients..] == old(clients[nclients..])[1..];
      }
    }

    /** One turn of the event loop: false when the server is to stop. Input at standard input and a
        failing accept stop it before anything is done, otherwise only a client that fails. */
    method Turn(ready: int, conn: int, io: Io) returns (goOn: bool, ghost handled: seq<int>, ghost result: Result)
      requires Valid()
      modifies this, clients
      ensures Valid() && result == Pass(old(View()), ready, conn, io)
      ensures goOn <==> result.Scanned? && !result.scan.failed
      ensures View() == if result.Scanned? then Table(result.scan.slots, result.dead) else old(View())
      ensures handled == if result.Scanned? then result.scan.handled else []
      ensures if old(clients[0].norm) || (old(clients[1].norm) && conn < 0)
              then !goOn && handled == [] && clients[..] == old(clients[..]) && nclients == old(nclients)
              else goOn <==> forall fd :: fd in handled ==> io(fd) != Failure
    {
      if clients[0].norm {
        return false, [], Exiting;
      }
      var nready := ready;
      if clients[1].norm {
        if conn < 0 {
          return false, [], AcceptFailed;
        }
        Append(conn);
        nready := nready - 1;
        if nready == 0 {
          return true, [], Scanned(Scan(View().live, [], [], false), View().dead);
        }
      }
      ghost var closed;
      var failed;
      ScanClosesRight(View().live, 2, nready, io);
      handled, closed, failed := Serve(nready, io);
      goOn, result := !failed, Scanned(Scan(View().live, handled, closed, failed), View().dead);
    }
  }
}
