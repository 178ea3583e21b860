/** The blocking queue (17-pthreads-monitors/02-queue-wait, reused by 18-thread-pool): a list
    under one mutex with one condition variable.

    A step is one critical section. `Get(t)` is thread t running the loop test of `queue_get`,
    either on first entry or after waking: it takes the head, or goes to sleep. A thread that was
    signalled (or woke spuriously) is `notified` until it has run the test again, and other
    consumers may run theirs first. */
module BlockingQueues {
  import opened Commons

  datatype Monitor<T> = Monitor(items: seq<T>, sleeping: set<nat>, notified: set<nat>)

  datatype Event<T> =
    | Put(item: T, woken: set<nat>)  // insert at the tail and signal; `woken` leave the wait
    | Get(thread: nat)
    | Spurious(thread: nat)

  /** A signal unblocks at least one of the threads asleep, if there is one. */
  predicate Signals<T>(m: Monitor<T>, woken: set<nat>) {
    woken <= m.sleeping && (m.sleeping != {} ==> woken != {})
  }

  predicate Enabled<T>(m: Monitor<T>, e: Event<T>) {
    match e
    case Put(_, woken) => Signals(m, woken)
    case Get(t) => t !in m.sleeping
    case Spurious(t) => t in m.sleeping
  }

  function Next<T>(m: Monitor<T>, e: Event<T>): Monitor<T> {
    match e
    case Put(x, woken) => Monitor(m.items + [x], m.sleeping - woken, m.notified + woken)
    case Get(t) =>
      if m.items == [] then Monitor([], m.sleeping + {t}, m.notified - {t})
      else Monitor(m.items[1..], m.sleeping, m.notified - {t})
    case Spurious(t) => Monitor(m.items, m.sleeping - {t}, m.notified + {t})
  }

  /** No lost wakeup: while anybody sleeps un-notified, there are at least as many threads about
      to recheck as there are items. */
  ghost predicate Inv<T>(m: Monitor<T>) {
    m.sleeping !! m.notified && (m.sleeping != {} ==> |m.items| <= |m.notified|)
  }

  lemma NextKeepsInv<T>(m: Monitor<T>, e: Event<T>)
    requires Inv(m) && Enabled(m, e)
    ensures Inv(Next(m, e))
  {
    match e
    case Put(x, woken) =>
      if woken != {} {
        assert |m.notified + woken| == |m.notified| + |woken|;
      }
    case Get(t) =>
      if t in m.notified {
        assert |m.notified - {t}| == |m.notified| - 1;
      } else {
        assert m.notified - {t} == m.notified;
      }
    case Spurious(t) =>
      assert |m.notified + {t}| == |m.notified| + 1;
  }

  /** A put may wake any of the sleepers, one by itself or several. One of them takes the item, or
      another consumer has been faster and it sleeps again. */
  lemma WokenTakesOrSleeps<T>(m: Monitor<T>, x: T, woken: set<nat>, t: nat, barging: nat)
    requires Inv(m) && m.items == [] && t in woken && woken <= m.sleeping && barging !in m.sleeping
    ensures Enabled(m, Put(x, woken))
    ensures var n := Next(m, Put(x, woken));
            && Enabled(n, Get(t)) && Next(n, Get(t)) == Monitor([], m.sleeping - woken, m.notified + (woken - {t}))
            && Enabled(n, Get(barging)) && Enabled(Next(n, Get(barging)), Get(t))
            && Next(Next(n, Get(barging)), Get(t)) ==
               Monitor([], m.sleeping - (woken - {t}), m.notified + (woken - {t}) - {barging})
  {
    assert m.notified + woken - {t} == m.notified + (woken - {t});
    assert m.notified + woken - {barging} - {t} == m.notified + (woken - {t}) - {barging};
    assert m.sleeping - woken + {t} == m.sleeping - (woken - {t});
  }

  // ---------------------------------------------------------------- runs

  /** A monitor with its history: items in the order inserted, and deliveries in order. */
  datatype Hist<T> = Hist(m: Monitor<T>, inserted: seq<T>, delivered: seq<(nat, T)>)

  function Step<T>(h: Hist<T>, e: Event<T>): Hist<T> {
    Hist(Next(h.m, e),
         if e.Put? then h.inserted + [e.item] else h.inserted,
         if e.Get? && h.m.items != [] then h.delivered + [(e.thread, h.m.items[0])] else h.delivered)
  }

  function Items<T>(ds: seq<(nat, T)>): seq<T> {
    seq(|ds|, i requires 0 <= i < |ds| => ds[i].1)
  }

  ghost predicate IsRun<T>(h: Hist<T>, es: seq<Event<T>>)
    decreases |es|
  {
    es == [] || (Enabled(h.m, es[0]) && IsRun(Step(h, es[0]), es[1..]))
  }

  ghost function Run<T>(h: Hist<T>, es: seq<Event<T>>): Hist<T>
    decreases |es|
  {
    if es == [] then h else Run(Step(h, es[0]), es[1..])
  }

  ghost predicate HistInv<T>(h: Hist<T>) {
    Inv(h.m) && h.inserted == Items(h.delivered) + h.m.items
  }

  /** Over any run: every item is delivered at most once, to one thread, in insertion order; what
      is not delivered is still queued; and a non-empty queue never has all its waiters asleep. */
  lemma {:induction false} RunsDeliverInOrder<T>(h: Hist<T>, es: seq<Event<T>>)
    requires HistInv(h) && IsRun(h, es)
    ensures var end := Run(h, es);
            && end.inserted == Items(end.delivered) + end.m.items
            && (end.m.items != [] && end.m.sleeping != {} ==> end.m.notified != {})
            && (end.m.sleeping != {} ==> |end.m.items| <= |end.m.notified|)
    decreases |es|
  {
    if es == [] {
      if h.m.sleeping != {} && h.m.items != [] {
        assert |h.m.notified| != 0;
      }
    } else {
      var next := Step(h, es[0]);
      NextKeepsInv(h.m, es[0]);
      assert next.inserted == Items(next.delivered) + next.m.items;
      RunsDeliverInOrder(next, es[1..]);
    }
  }

  function DeliveredTo<T>(ds: seq<(nat, T)>, t: nat): nat {
    if ds == [] then 0 else DeliveredTo(ds[..|ds| - 1], t) + One(ds[|ds| - 1].0 == t)
  }

  function GetsOf<T>(es: seq<Event<T>>, t: nat): nat {
    if es == [] then 0 else One(es[0] == Get(t)) + GetsOf(es[1..], t)
  }

  /** Nobody is delivered an item but by its own call: at most one for each time it looks. */
  lemma {:induction false} DeliveredByOwnCalls<T>(h: Hist<T>, es: seq<Event<T>>, t: nat)
    requires IsRun(h, es)
    ensures DeliveredTo(Run(h, es).delivered, t) <= DeliveredTo(h.delivered, t) + GetsOf(es, t)
    decreases |es|
  {
    if es != [] {
      var n := Step(h, es[0]);
      if n.delivered != h.delivered {
        assert n.delivered[..|n.delivered| - 1] == h.delivered;
      }
      DeliveredByOwnCalls(n, es[1..], t);
    }
  }

  // ---------------------------------------------------------------- the code

  class BlockingQueue<T> {
    var head: seq<T>
    var size: nat
    var sleeping: set<nat>  // the condition variable's waiters
    var notified: set<nat>  // woken, waiting to run the loop test again

    ghost predicate Valid() reads this { size == |head| }

    ghost function View(): Monitor<T> reads this { Monitor(head, sleeping, notified) }

    constructor ()
      ensures Valid() && View() == Monitor([], {}, {})
    {
      head, size, sleeping, notified := [], 0, {}, {};
    }

    method Put(item: T, woken: set<nat>)
      requires Valid() && Enabled(View(), Event.Put(item, woken))
      modifies this
      ensures Valid() && View() == Next(old(View()), Event.Put(item, woken))
      ensures head == old(head) + [item] && sleeping == old(sleeping) - woken && notified == old(notified) + woken
    {
      head := head + [item];
      size := size + 1;
      sleeping, notified := sleeping - woken, notified + woken;
    }

    /** One critical section of `queue_get`: an item, or None and the caller is asleep. */
    method Get(thread: nat) returns (item: Option<T>)
      requires Valid() && Enabled(View(), Event<T>.Get(thread))
      modifies this
      ensures Valid() && View() == Next(old(View()), Event.Get(thread))
      ensures item == if old(head) == [] then None else Some(old(head)[0])
      ensures if item.None? then thread in sleeping else head == old(head)[1..] && sleeping == old(sleeping)
    {
      notified := notified - {thread};
      if size == 0 {
        sleeping := sleeping + {thread};
        return None;
      }
      item := Some(head[0]);
      head := head[1..];
      size := size - 1;
    }

    method Spurious(thread: nat)
      requires Valid() && Enabled(View(), Event<T>.Spurious(thread))
      modifies this
      ensures Valid() && View() == Next(old(View()), Event.Spurious(thread))
    {
      sleeping, notified := sleeping - {thread}, notified + {thread};
    }
  }
}
