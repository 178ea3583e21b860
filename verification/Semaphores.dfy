/** The multi-unit semaphore for user threads (15-uthread-synch): weighted requests, a FIFO
    wait list, a limit that clips posted units, and a release loop that stops at the first
    request that does not fit.

    `Sem` is the value of the semaphore, `Fit`/`Post`/`Wait` say what one call does to it, and
    `Hist` adds the history a run needs: arrivals, grants, posted and clipped units, and the
    units each thread holds. The class at the end is the code itself. */
module Semaphores {

  const INT_MAX: int := 0x7fff_ffff

  datatype Request = Request(thread: nat, units: int)

  datatype Sem = Sem(units: int, limit: int, waiters: seq<Request>)

  function Total(rs: seq<Request>): int {
    if rs == [] then 0 else rs[0].units + Total(rs[1..])
  }

  function Threads(rs: seq<Request>): (ts: seq<nat>)
    ensures |ts| == |rs| && forall i :: 0 <= i < |rs| ==> ts[i] == rs[i].thread
  {
    if rs == [] then [] else [rs[0].thread] + Threads(rs[1..])
  }

  ghost predicate NonNegative(rs: seq<Request>) {
    forall i :: 0 <= i < |rs| ==> 0 <= rs[i].units
  }

  /** Every request asks for at least one unit and for no more than the limit. */
  ghost predicate Within(rs: seq<Request>, limit: int) {
    forall i :: 0 <= i < |rs| ==> 1 <= rs[i].units <= limit
  }

  /** How many waiters the release loop lets go, given `u` units. */
  function Fit(u: int, ws: seq<Request>): (k: nat)
    ensures k <= |ws|
    decreases ws
  {
    if u <= 0 || ws == [] || u < ws[0].units then 0
    else 1 + Fit(u - ws[0].units, ws[1..])
  }

  function Clip(s: Sem, n: int): int {
    if s.units + n > s.limit then s.limit else s.units + n
  }

  /** The semaphore after serving the waiters from a pool of u units. */
  function Serve(s: Sem, u: int): Sem {
    var k := Fit(u, s.waiters);
    Sem(u - Total(s.waiters[..k]), s.limit, s.waiters[k..])
  }

  /** The number of waiters one post releases. */
  function Released(s: Sem, n: int): (k: nat)
    ensures k <= |s.waiters|
  {
    Fit(Clip(s, n), s.waiters)
  }

  function Post(s: Sem, n: int): Sem {
    Serve(s, Clip(s, n))
  }

  predicate Grants(s: Sem, r: Request) {
    s.waiters == [] && s.units >= r.units
  }

  function Wait(s: Sem, r: Request): Sem {
    if Grants(s, r) then s.(units := s.units - r.units) else s.(waiters := s.waiters + [r])
  }

  /** Between calls nobody is left waiting who could be served: either there are no waiters or
      the head request exceeds the units (a request for zero units also waits out an empty
      semaphore, because the loop does not look at the list when there are no units). */
  ghost predicate Settled(s: Sem) {
    s.waiters == [] || s.units < s.waiters[0].units || s.units == 0
  }

  ghost predicate Valid(s: Sem) {
    0 <= s.units <= s.limit && NonNegative(s.waiters) && Settled(s)
  }

  // ---------------------------------------------------------------- totals

  lemma {:induction false} TotalConcat(a: seq<Request>, b: seq<Request>)
    ensures Total(a + b) == Total(a) + Total(b)
  {
    if a == [] {
      assert a + b == b;
    } else {
      TotalConcat(a[1..], b);
      assert (a + b)[1..] == a[1..] + b;
    }
  }

  lemma {:induction false} TotalNonNegative(rs: seq<Request>)
    requires NonNegative(rs)
    ensures 0 <= Total(rs)
  {
    if rs != [] {
      TotalNonNegative(rs[1..]);
    }
  }

  lemma TotalSplit(rs: seq<Request>, i: nat, j: nat)
    requires i <= j <= |rs|
    ensures Total(rs[..j]) == Total(rs[..i]) + Total(rs[i..j])
  {
    assert rs[..j] == rs[..i] + rs[i..j];
    TotalConcat(rs[..i], rs[i..j]);
  }

  // ---------------------------------------------------------------- the release loop

  /** One turn of the loop: the first waiter's units go, and the rest is served from what is left. */
  lemma FirstServed(ws: seq<Request>, k: nat)
    requires 1 <= k <= |ws|
    ensures Total(ws[..k]) == ws[0].units + Total(ws[1..][..k - 1])
    ensures ws[1..][k - 1..] == ws[k..]
  {
    assert ws[..k] == [ws[0]] + ws[1..][..k - 1];
    TotalConcat([ws[0]], ws[1..][..k - 1]);
  }

  /** What is released fits, and the loop stopped for a reason. */
  lemma {:induction false} FitStops(u: int, ws: seq<Request>)
    requires 0 <= u && NonNegative(ws)
    ensures var k := Fit(u, ws);
            var rest := u - Total(ws[..k]);
            0 <= rest <= u && (k == |ws| || rest < ws[k].units || rest == 0)
  {
    if u <= 0 || ws == [] || u < ws[0].units {
    } else {
      FitStops(u - ws[0].units, ws[1..]);
      FirstServed(ws, Fit(u, ws));
    }
  }

  /** For requests of zero units too: a waiter is released exactly when all up to it fit and those ahead
      of it leave at least one unit. */
  lemma {:induction false} FitExactly(u: int, ws: seq<Request>, j: nat)
    requires 0 <= u && 0 < j <= |ws| && NonNegative(ws)
    ensures j <= Fit(u, ws) <==> Total(ws[..j]) <= u && Total(ws[..j - 1]) < u
    decreases ws
  {
    FirstServed(ws, j);
    TotalNonNegative(ws[..j - 1]);
    TotalNonNegative(ws[1..][..j - 1]);
    if u > 0 && u >= ws[0].units {
      if j > 1 {
        FirstServed(ws, j - 1);
        FitExactly(u - ws[0].units, ws[1..], j - 1);
      } else {
        assert ws[1..][..0] == [];
      }
    }
  }

  /** `sem_post` releases exactly the longest prefix of waiters whose total fits. */
  lemma {:induction false} FitIsLongest(u: int, ws: seq<Request>, j: nat)
    requires 0 <= u && j <= |ws|
    requires forall i :: 0 <= i < |ws| ==> 1 <= ws[i].units
    ensures Total(ws[..j]) <= u <==> j <= Fit(u, ws)
  {
    var k := Fit(u, ws);
    FitStops(u, ws);
    if j <= k {
      TotalSplit(ws, j, k);
      TotalNonNegative(ws[j..k]);
    } else {
      TotalSplit(ws, k, j);
      assert ws[k..j] == [ws[k]] + ws[k + 1..j];
      TotalConcat([ws[k]], ws[k + 1..j]);
      TotalNonNegative(ws[k + 1..j]);
    }
  }

  /** Serving from a larger pool first serves everyone the smaller pool serves. */
  lemma {:induction false} FitGrows(u: int, v: int, ws: seq<Request>)
    requires u <= v
    ensures var k := Fit(u, ws);
            Fit(v, ws) == k + Fit(v - Total(ws[..k]), ws[k..])
    decreases ws
  {
    if u <= 0 || ws == [] || u < ws[0].units {
      assert ws[0..] == ws;
    } else {
      FitGrows(u - ws[0].units, v - ws[0].units, ws[1..]);
      FirstServed(ws, Fit(u, ws));
    }
  }

  lemma FitGrowsOrEqual(u: int, v: int, ws: seq<Request>)
    requires u <= v
    ensures Fit(u, ws) <= Fit(v, ws)
  {
    FitGrows(u, v, ws);
  }

  lemma WaitKeepsValid(s: Sem, r: Request)
    requires Valid(s) && 0 <= r.units
    ensures Valid(Wait(s, r))
  {
    if !Grants(s, r) && s.waiters == [] {
      assert Wait(s, r).waiters == [r];
    }
  }

  lemma PostKeepsValid(s: Sem, n: nat)
    requires Valid(s)
    ensures Valid(Post(s, n))
    ensures Total(s.waiters[..Released(s, n)]) + Post(s, n).units == Clip(s, n)
    ensures s.units <= Clip(s, n) <= s.limit
  {
    FitStops(Clip(s, n), s.waiters);
  }

  // ---------------------------------------------------------------- splitting a post

  lemma JoinParts(ws: seq<Request>, k: nat, j: nat)
    requires k + j <= |ws|
    ensures Total(ws[..k + j]) == Total(ws[..k]) + Total(ws[k..][..j])
    ensures ws[k..][j..] == ws[k + j..]
  {
    TotalSplit(ws, k, k + j);
    assert ws[k..k + j] == ws[k..][..j];
  }

  /** A second loop serves the waiters a single one would have gone on to. */
  lemma FitTwice(ws: seq<Request>, u: int, v: int)
    requires u - Total(ws[..Fit(u, ws)]) <= v
    ensures var k := Fit(u, ws);
            Fit(v + Total(ws[..k]), ws) == k + Fit(v, ws[k..])
  {
    var given := Total(ws[..Fit(u, ws)]);
    FitGrows(u, v + given, ws);
    assert v + given - given == v;
  }

  /** Serving what the first pool left from a second one is serving from one pool: the second, and
      what the first gave out. */
  lemma ServeTwice(s: Sem, u: int, v: int)
    requires Serve(s, u).units <= v
    ensures Serve(Serve(s, u), v) == Serve(s, v + u - Serve(s, u).units)
  {
    var k := Fit(u, s.waiters);
    FitTwice(s.waiters, u, v);
    JoinParts(s.waiters, k, Fit(v, s.waiters[k..]));
  }

  /** Serving gives out no more than the pool, and nothing exactly when it releases nobody. */
  lemma GivesOut(s: Sem, u: int)
    requires 0 <= u && forall i :: 0 <= i < |s.waiters| ==> 1 <= s.waiters[i].units
    ensures 0 <= Serve(s, u).units <= u
    ensures Serve(s, u).units == u <==> Serve(s, u).waiters == s.waiters
  {
    var k := Fit(u, s.waiters);
    FitStops(u, s.waiters);
    assert |Serve(s, u).waiters| == |s.waiters| - k;
    if k > 0 {
      TotalPositive(s.waiters[..k]);
    }
  }

  lemma {:induction false} TotalPositive(rs: seq<Request>)
    requires rs != [] && forall i :: 0 <= i < |rs| ==> 1 <= rs[i].units
    ensures 0 < Total(rs)
  {
    TotalNonNegative(rs[1..]);
  }

  /** Different pools leave different semaphores. */
  lemma ServeInjective(s: Sem, x: Sem, y: Sem, v: int, w: int)
    requires x == Serve(s, v) && y == Serve(s, w)
    ensures x == y <==> v == w
  {
    assert |x.waiters| == |s.waiters| - Fit(v, s.waiters);
    assert |y.waiters| == |s.waiters| - Fit(w, s.waiters);
  }

  /** Two posts release at least as many waiters as one post of the sum. */
  lemma SplitReleasesNoFewer(s: Sem, a: nat, b: nat)
    requires Valid(s)
    ensures |Post(Post(s, a), b).waiters| <= |Post(s, a + b).waiters|
  {
    PostKeepsValid(s, a);
    TotalNonNegative(s.waiters[..Released(s, a)]);
    var pool := Clip(Post(s, a), b) + Clip(s, a) - Post(s, a).units;
    ServeTwice(s, Clip(s, a), Clip(Post(s, a), b));
    FitGrowsOrEqual(Clip(s, a + b), pool, s.waiters);
    ServedLeaves(s, pool);
    ServedLeaves(s, Clip(s, a + b));
  }

  lemma ServedLeaves(s: Sem, u: int)
    ensures |Serve(s, u).waiters| == |s.waiters| - Fit(u, s.waiters)
  {
  }

  lemma PoolOfTwo(s: Sem, p: Sem, a: nat, b: nat)
    requires s.units <= s.limit && p.limit == s.limit && p.units <= Clip(s, a)
    ensures Clip(p, b) + Clip(s, a) - p.units == Clip(s, a + b) <==>
            (b == 0 || s.units + a + b <= s.limit || p.units == Clip(s, a))
  {
  }

  lemma SplitByPool(s: Sem, a: nat, b: nat)
    requires Post(s, a).units <= Clip(Post(s, a), b)
    ensures Post(Post(s, a), b) == Post(s, a + b) <==>
            Clip(Post(s, a), b) + Clip(s, a) - Post(s, a).units == Clip(s, a + b)
  {
    var p := Post(s, a);
    ServeTwice(s, Clip(s, a), Clip(p, b));
    ServeInjective(s, Post(p, b), Post(s, a + b), Clip(p, b) + Clip(s, a) - p.units, Clip(s, a + b));
  }

  /** The request at the head fits in what a post of n leaves to give out. */
  predicate HeadFits(s: Sem, n: int) {
    s.waiters != [] && s.waiters[0].units <= Clip(s, n)
  }

  lemma HeadDecides(s: Sem, n: nat)
    requires Valid(s)
    requires forall i :: 0 <= i < |s.waiters| ==> 1 <= s.waiters[i].units
    ensures Post(s, n).waiters == s.waiters <==> !HeadFits(s, n)
  {
    assert |Post(s, n).waiters| == |s.waiters| - Released(s, n);
  }

  /** Two posts equal one post of the sum exactly when the second posts nothing, the sum is not
      clipped, or the head request does not fit in the first post. */
  lemma SplitPostsExactly(s: Sem, a: nat, b: nat)
    requires Valid(s)
    requires forall i :: 0 <= i < |s.waiters| ==> 1 <= s.waiters[i].units
    ensures Post(Post(s, a), b) == Post(s, a + b) <==>
            (b == 0 || s.units + a + b <= s.limit || !HeadFits(s, a))
  {
    GivesOut(s, Clip(s, a));
    PoolOfTwo(s, Post(s, a), a, b);
    SplitByPool(s, a, b);
    HeadDecides(s, a);
  }

  /** A clipped post is not the sum of its halves: limit 2, two waiters for 2 units each. */
  lemma SplitPostsDiffer()
    ensures var s := Sem(0, 2, [Request(1, 2), Request(2, 2)]);
            Post(s, 4).waiters == [Request(2, 2)] && Post(Post(s, 2), 2).waiters == []
  {
    var s := Sem(0, 2, [Request(1, 2), Request(2, 2)]);
    assert s.waiters[1..] == [Request(2, 2)];
    assert Fit(2, s.waiters) == 1;
    assert Post(s, 4).waiters == s.waiters[1..];
    assert s.waiters[..1] == [Request(1, 2)];
    assert Total([Request(1, 2)]) == 2;
    assert Post(s, 2) == Sem(0, 2, [Request(2, 2)]);
    assert Fit(2, [Request(2, 2)]) == 1;
  }

  // ---------------------------------------------------------------- runs

  datatype Event = Acquire(r: Request) | Release(thread: nat, n: nat)

  datatype Hist = Hist(
    sem: Sem,
    initial: int,
    arrivals: seq<Request>,  // every request, in arrival order
    granted: seq<Request>,   // every request served, in the order served
    posted: int,
    clipped: int,            // units lost to the limit
    held: multiset<nat>)     // multiplicity of a thread = units it holds

  function Give(held: multiset<nat>, r: Request): multiset<nat>
    requires 0 <= r.units
  {
    held[r.thread := held[r.thread] + r.units]
  }

  ghost function GiveAll(held: multiset<nat>, rs: seq<Request>): (h: multiset<nat>)
    requires NonNegative(rs)
    ensures |h| == |held| + Total(rs)
    decreases rs
  {
    if rs == [] then held else GiveAll(Give(held, rs[0]), rs[1..])
  }

  function Take(held: multiset<nat>, thread: nat, n: nat): multiset<nat> {
    held[thread := if n <= held[thread] then held[thread] - n else 0]
  }

  function Start(units: int, limit: int): Hist {
    Hist(Sem(units, limit, []), units, [], [], 0, 0, multiset{})
  }

  ghost predicate Legal(e: Event) {
    e.Acquire? ==> 0 <= e.r.units
  }

  ghost function Step(h: Hist, e: Event): Hist
    requires Inv(h) && Legal(e)
  {
    match e
    case Acquire(r) =>
      if Grants(h.sem, r) then
        h.(sem := Wait(h.sem, r), arrivals := h.arrivals + [r], granted := h.granted + [r],
           held := Give(h.held, r))
      else
        h.(sem := Wait(h.sem, r), arrivals := h.arrivals + [r])
    case Release(t, n) =>
      var k := Released(h.sem, n);
      h.(sem := Post(h.sem, n), granted := h.granted + h.sem.waiters[..k], posted := h.posted + n,
         clipped := h.clipped + (h.sem.units + n - Clip(h.sem, n)),
         held := GiveAll(Take(h.held, t, n), h.sem.waiters[..k]))
  }

  /** Kept by every call: arrivals are the grants followed by the waiters, and every unit is
      accounted for. */
  ghost predicate Inv(h: Hist) {
    && Valid(h.sem)
    && h.arrivals == h.granted + h.sem.waiters
    && h.sem.units == h.initial + h.posted - h.clipped - Total(h.granted)
    && 0 <= h.clipped
  }

  lemma StepKeepsInv(h: Hist, e: Event)
    requires Inv(h) && Legal(e)
    ensures Inv(Step(h, e))
  {
    match e
    case Acquire(r) => AcquireKeepsInv(h, r);
    case Release(t, n) => ReleaseKeepsInv(h, t, n);
  }

  lemma AcquireKeepsInv(h: Hist, r: Request)
    requires Inv(h) && 0 <= r.units
    ensures Inv(Step(h, Acquire(r)))
  {
    WaitKeepsValid(h.sem, r);
    if Grants(h.sem, r) {
      TotalConcat(h.granted, [r]);
      assert Total([r]) == r.units;
    }
  }

  lemma ReleaseKeepsInv(h: Hist, t: nat, n: nat)
    requires Inv(h)
    ensures Inv(Step(h, Release(t, n)))
  {
    var k, ws := Released(h.sem, n), h.sem.waiters;
    PostKeepsValid(h.sem, n);
    TotalConcat(h.granted, ws[..k]);
    assert h.granted + ws == (h.granted + ws[..k]) + ws[k..];
  }

  ghost predicate AllLegal(es: seq<Event>) {
    forall i :: 0 <= i < |es| ==> Legal(es[i])
  }

  ghost function Run(h: Hist, es: seq<Event>): (end: Hist)
    requires Inv(h) && AllLegal(es)
    ensures Inv(end)
    decreases |es|
  {
    if es == [] then h
    else
      var next := Step(h, es[0]);
      assert Inv(next) by { StepKeepsInv(h, es[0]); }
      Run(next, es[1..])
  }

  /** Over any run: grants never overtake arrivals, nobody servable is left waiting, and units
      equal initial + posted - clipped - granted and stay within 0..limit. */
  lemma {:induction false} RunsAreFairAndConserve(units: int, limit: int, es: seq<Event>)
    requires 0 <= units <= limit && AllLegal(es)
    ensures Inv(Start(units, limit))
    ensures var h := Run(Start(units, limit), es);
            && h.granted <= h.arrivals
            && h.arrivals[|h.granted|..] == h.sem.waiters
            && Settled(h.sem)
            && 0 <= h.sem.units <= limit
            && h.sem.units == units + h.posted - h.clipped - Total(h.granted)
  {
    var s := Start(units, limit);
    assert Total([]) == 0 && s.granted + s.sem.waiters == [];
    RunKeepsParameters(s, es);
  }

  lemma {:induction false} RunKeepsParameters(h: Hist, es: seq<Event>)
    requires Inv(h) && AllLegal(es)
    ensures Run(h, es).initial == h.initial && Run(h, es).sem.limit == h.sem.limit
    ensures h.granted <= Run(h, es).granted
    ensures h.arrivals <= Run(h, es).arrivals
    decreases |es|
  {
    if es != [] {
      StepKeepsInv(h, es[0]);
      RunKeepsParameters(Step(h, es[0]), es[1..]);
    }
  }

  function Requests(es: seq<Event>): seq<Request> {
    if es == [] then [] else (if es[0].Acquire? then [es[0].r] else []) + Requests(es[1..])
  }

  function Posts(es: seq<Event>): nat {
    if es == [] then 0 else (if es[0].Release? then es[0].n else 0) + Posts(es[1..])
  }

  lemma StepRecords(h: Hist, e: Event)
    requires Inv(h) && Legal(e)
    ensures Step(h, e).arrivals == h.arrivals + if e.Acquire? then [e.r] else []
    ensures Step(h, e).posted == h.posted + if e.Release? then e.n else 0
  {
  }

  lemma ArrivalsJoin(arrivals: seq<Request>, es: seq<Event>)
    requires es != []
    ensures arrivals + Requests(es) == arrivals + (if es[0].Acquire? then [es[0].r] else []) + Requests(es[1..])
  {
  }

  /** The history is that of the calls: arrivals are the requests made, in order, and posted units are
      those of all posts; so clipped units are what conservation leaves. */
  lemma {:induction false} HistoryIsOfCalls(h: Hist, es: seq<Event>)
    requires Inv(h) && AllLegal(es)
    ensures Run(h, es).arrivals == h.arrivals + Requests(es)
    ensures Run(h, es).posted == h.posted + Posts(es)
    decreases |es|
  {
    if es != [] {
      var n := Step(h, es[0]);
      StepKeepsInv(h, es[0]);
      StepRecords(h, es[0]);
      HistoryIsOfCalls(n, es[1..]);
      ArrivalsJoin(h.arrivals, es);
    }
  }

  // ---------------------------------------------------------------- threads that post what they hold

  /** Every post in the run gives back units its thread holds at that point. */
  ghost predicate Disciplined(h: Hist, es: seq<Event>)
    requires Inv(h) && AllLegal(es)
    decreases |es|
  {
    es == [] ||
    ((es[0].Release? ==> es[0].n <= h.held[es[0].thread]) &&
     (StepKeepsInv(h, es[0]); Disciplined(Step(h, es[0]), es[1..])))
  }

  lemma DisciplinedStep(h: Hist, e: Event)
    requires Inv(h) && Legal(e)
    requires h.sem.units + |h.held| == h.initial <= h.sem.limit && h.clipped == 0
    requires e.Release? ==> e.n <= h.held[e.thread]
    ensures var h' := Step(h, e);
            h'.sem.units + |h'.held| == h'.initial <= h'.sem.limit && h'.clipped == 0
  {
    if e.Release? {
      assert |h.held[e.thread := 0]| == |h.held| - h.held[e.thread];
      PostKeepsValid(h.sem, e.n);
    }
  }

  /** If threads post only units they hold, clipping never happens, and the free units plus all
      held units equal the initial units throughout. */
  lemma {:induction false} HeldUnitsConserved(h: Hist, es: seq<Event>)
    requires Inv(h) && AllLegal(es) && Disciplined(h, es)
    requires h.sem.units + |h.held| == h.initial <= h.sem.limit && h.clipped == 0
    ensures var end := Run(h, es);
            end.clipped == 0 && end.sem.units + |end.held| == h.initial
    decreases |es|
  {
    if es != [] {
      StepKeepsInv(h, es[0]);
      DisciplinedStep(h, es[0]);
      HeldUnitsConserved(Step(h, es[0]), es[1..]);
    }
  }

  /** The units that these requests of thread t ask for. */
  function UnitsOf(rs: seq<Request>, t: nat): int {
    if rs == [] then 0 else (if rs[0].thread == t then rs[0].units else 0) + UnitsOf(rs[1..], t)
  }

  function PostOf(e: Event, t: nat): nat {
    if e.Release? && e.thread == t then e.n else 0
  }

  /** The units thread t posts. */
  function PostedBy(es: seq<Event>, t: nat): nat {
    if es == [] then 0
    else PostOf(es[0], t) + PostedBy(es[1..], t)
  }

  lemma {:induction false} UnitsOfConcat(a: seq<Request>, b: seq<Request>, t: nat)
    ensures UnitsOf(a + b, t) == UnitsOf(a, t) + UnitsOf(b, t)
  {
    if a == [] {
      assert a + b == b;
    } else {
      UnitsOfConcat(a[1..], b, t);
      assert (a + b)[1..] == a[1..] + b;
    }
  }

  lemma {:induction false} GivenAll(held: multiset<nat>, rs: seq<Request>, t: nat)
    requires NonNegative(rs)
    ensures GiveAll(held, rs)[t] == held[t] + UnitsOf(rs, t)
    decreases rs
  {
    if rs != [] {
      GivenAll(Give(held, rs[0]), rs[1..], t);
    }
  }

  /** What thread t holds beside what it has been granted and what it has posted. */
  function Account(h: Hist, t: nat): int {
    h.held[t] - UnitsOf(h.granted, t)
  }

  lemma StepHolds(h: Hist, e: Event, t: nat)
    requires Inv(h) && Legal(e) && (e.Release? ==> e.n <= h.held[e.thread])
    ensures Account(Step(h, e), t) == Account(h, t) - PostOf(e, t)
  {
    match e
    case Acquire(r) =>
      UnitsOfConcat(h.granted, [r], t);
      assert UnitsOf([r], t) == if r.thread == t then r.units else 0;
    case Release(u, n) =>
      var served := h.sem.waiters[..Released(h.sem, n)];
      UnitsOfConcat(h.granted, served, t);
      GivenAll(Take(h.held, u, n), served, t);
  }

  /** Whose the held units are: over a run in which threads post only units they hold, a thread holds
      those of its own granted requests, granted at once or from the wait list, less those it has posted. */
  lemma {:induction false} HeldByThread(h: Hist, es: seq<Event>, t: nat)
    requires Inv(h) && AllLegal(es) && Disciplined(h, es)
    ensures Account(Run(h, es), t) == Account(h, t) - PostedBy(es, t)
    decreases |es|
  {
    if es != [] {
      var n := Step(h, es[0]);
      StepKeepsInv(h, es[0]);
      StepHolds(h, es[0], t);
      HeldByThread(n, es[1..], t);
    }
  }

  lemma HeldFromStart(units: int, limit: int, es: seq<Event>, t: nat)
    requires 0 <= units <= limit && AllLegal(es)
    requires (RunsAreFairAndConserve(units, limit, es); Disciplined(Start(units, limit), es))
    ensures Inv(Start(units, limit))
    ensures var end := Run(Start(units, limit), es);
            end.held[t] == UnitsOf(end.granted, t) - PostedBy(es, t)
  {
    RunsAreFairAndConserve(units, limit, es);
    HeldByThread(Start(units, limit), es, t);
  }

  lemma {:induction false} UnitsOfNonNegative(rs: seq<Request>, t: nat)
    requires NonNegative(rs)
    ensures UnitsOf(rs, t) >= 0
  {
    if rs != [] {
      UnitsOfNonNegative(rs[1..], t);
    }
  }

  lemma {:induction false} UnitsOfHas(rs: seq<Request>, k: nat)
    requires k < |rs| && NonNegative(rs)
    ensures UnitsOf(rs, rs[k].thread) >= rs[k].units
  {
    if k > 0 {
      UnitsOfHas(rs[1..], k - 1);
    } else {
      UnitsOfNonNegative(rs[1..], rs[0].thread);
    }
  }

  /** Whoever a post releases from the wait list holds its units then, and may post them. */
  lemma ReleasedMayPost(h: Hist, t: nat, n: nat, k: nat)
    requires Inv(h) && n <= h.held[t] && k < Released(h.sem, n)
    ensures h.sem.waiters[k].units <= Step(h, Release(t, n)).held[h.sem.waiters[k].thread]
  {
    var served := h.sem.waiters[..Released(h.sem, n)];
    assert served[k] == h.sem.waiters[k];
    GivenAll(Take(h.held, t, n), served, served[k].thread);
    UnitsOfHas(served, k);
  }

  /** A thread that takes units and gives them back posts only what it holds. */
  lemma TakeAndGiveBack(units: int, limit: int, r: Request)
    requires 0 <= r.units <= units <= limit
    ensures Inv(Start(units, limit)) && AllLegal([Acquire(r), Release(r.thread, r.units)])
    ensures Disciplined(Start(units, limit), [Acquire(r), Release(r.thread, r.units)])
  {
    var h, es := Start(units, limit), [Acquire(r), Release(r.thread, r.units)];
    assert h.granted + h.sem.waiters == [] && Total([]) == 0;
    assert Step(h, Acquire(r)).held[r.thread] == r.units;
    assert es[1..] == [Release(r.thread, r.units)] && es[1..][1..] == [];
    StepKeepsInv(h, Acquire(r));
    assert Disciplined(Step(h, Acquire(r)), es[1..]);
  }

  // ---------------------------------------------------------------- progress

  /** Units still to be posted before the waiter at `pos` and all those ahead of it are served. */
  function Need(s: Sem, pos: nat): int
    requires pos < |s.waiters|
  {
    Total(s.waiters[..pos + 1]) - s.units
  }

  function PositivePosts(es: seq<Event>): nat {
    if es == [] then 0
    else (if es[0].Release? && es[0].n > 0 then 1 else 0) + PositivePosts(es[1..])
  }

  /** A post of at least one unit releases the waiter or brings it strictly nearer, however much
      of the post is clipped. */
  lemma PostBringsNearer(s: Sem, n: nat, pos: nat)
    requires Valid(s) && pos < |s.waiters| && Within(s.waiters[..pos + 1], s.limit)
    ensures var k := Released(s, n);
            k <= pos ==>
              Post(s, n).waiters[pos - k] == s.waiters[pos] &&
              Need(Post(s, n), pos - k) <= Need(s, pos) - (if n > 0 then 1 else 0)
    ensures Released(s, n) <= pos ==> Need(s, pos) > 0
  {
    var k := Released(s, n);
    PostKeepsValid(s, n);
    assert s.waiters[..pos + 1][0] == s.waiters[0];
    if k <= pos {
      TotalSplit(s.waiters, k, pos + 1);
      assert s.waiters[k..pos + 1] == s.waiters[k..][..pos - k + 1];
      var ahead := s.waiters[k..pos + 1];
      assert s.waiters[..pos + 1][k] == s.waiters[k];
      assert ahead == [s.waiters[k]] + ahead[1..];
      TotalConcat([s.waiters[k]], ahead[1..]);
      assert forall i :: 0 <= i < |ahead| ==> ahead[i] == s.waiters[..pos + 1][k + i];
      TotalNonNegative(ahead[1..]);
      FitStops(Clip(s, n), s.waiters);
    }
  }

  lemma NeedPositive(s: Sem, pos: nat)
    requires Valid(s) && pos < |s.waiters| && Within(s.waiters[..pos + 1], s.limit)
    ensures Need(s, pos) > 0
  {
    var ahead := s.waiters[..pos + 1];
    assert ahead[0] == s.waiters[0];
    assert NonNegative(ahead[1..]);
    TotalNonNegative(ahead[1..]);
  }

  lemma StepBringsNearer(h: Hist, e: Event, pos: nat)
    requires Inv(h) && Legal(e)
    requires pos < |h.sem.waiters| && Within(h.sem.waiters[..pos + 1], h.sem.limit)
    ensures var k := |Step(h, e).granted| - |h.granted|;
            var next := Step(h, e).sem;
            k <= pos && |h.sem.waiters| > 0 ==>
              0 <= k && pos - k < |next.waiters| && next.waiters[pos - k] == h.sem.waiters[pos] &&
              Within(next.waiters[..pos - k + 1], next.limit) &&
              Need(next, pos - k) <= Need(h.sem, pos) - PositivePosts([e])
  {
    assert PositivePosts([e]) == if e.Release? && e.n > 0 then 1 else 0;
    var next := Step(h, e).sem;
    if e.Release? {
      var k := Released(h.sem, e.n);
      PostBringsNearer(h.sem, e.n, pos);
      if k <= pos {
        var ahead := next.waiters[..pos - k + 1];
        assert forall i :: 0 <= i < |ahead| ==> ahead[i] == h.sem.waiters[..pos + 1][k + i];
      }
    } else {
      assert next.waiters[..pos + 1] == h.sem.waiters[..pos + 1];
    }
  }

  /** Progress: a waiter with all requests up to its own within 1..limit is served after at most
      `Need` posts of at least one unit, whatever else arrives, is clipped or is posted. */
  lemma {:induction false} WaiterIsServed(h: Hist, es: seq<Event>, pos: nat)
    requires Inv(h) && AllLegal(es)
    requires pos < |h.sem.waiters| && Within(h.sem.waiters[..pos + 1], h.sem.limit)
    requires PositivePosts(es) >= Need(h.sem, pos)
    ensures var end := Run(h, es);
            |h.granted| + pos < |end.granted| && end.granted[|h.granted| + pos] == h.sem.waiters[pos]
    decreases |es|
  {
    assert h.arrivals[|h.granted| + pos] == h.sem.waiters[pos];
    RunKeepsParameters(h, es);
    NeedPositive(h.sem, pos);
    var next := Step(h, es[0]);
    var k := |next.granted| - |h.granted|;
    StepKeepsInv(h, es[0]);
    StepBringsNearer(h, es[0], pos);
    RunKeepsParameters(next, es[1..]);
    if k <= pos {
      WaiterIsServed(next, es[1..], pos - k);
    }
  }

  /** The bound on requests is necessary: a waiter at or behind a request above the limit is
      never served, in any run. */
  lemma {:induction false} OversizedBlocksForever(h: Hist, es: seq<Event>, pos: nat)
    requires Inv(h) && AllLegal(es)
    requires pos < |h.sem.waiters| && h.sem.waiters[pos].units > h.sem.limit
    ensures |Run(h, es).granted| <= |h.granted| + pos
    decreases |es|
  {
    if es != [] {
      var e := es[0];
      var s := h.sem;
      StepKeepsInv(h, e);
      if e.Release? {
        var k := Released(s, e.n);
        PostKeepsValid(s, e.n);
        if k > pos {
          TotalSplit(s.waiters, pos, k);
          assert s.waiters[pos..k] == [s.waiters[pos]] + s.waiters[pos + 1..k];
          TotalConcat([s.waiters[pos]], s.waiters[pos + 1..k]);
          TotalNonNegative(s.waiters[..pos]);
          TotalNonNegative(s.waiters[pos + 1..k]);
          assert false;
        }
        OversizedBlocksForever(Step(h, e), es[1..], pos - k);
      } else {
        OversizedBlocksForever(Step(h, e), es[1..], pos);
      }
    }
  }

  // ---------------------------------------------------------------- the code

  /** One turn of the release loop. */
  lemma OneMore(ws: seq<Request>, k: nat)
    requires k < |ws|
    ensures Total(ws[..k + 1]) == Total(ws[..k]) + ws[k].units
    ensures Threads(ws[..k + 1]) == Threads(ws[..k]) + [ws[k].thread]
    ensures ws[k..][0] == ws[k] && ws[k..][1..] == ws[k + 1..]
  {
    assert ws[..k + 1] == ws[..k] + [ws[k]];
    TotalConcat(ws[..k], [ws[k]]);
  }

  class Semaphore {
    var units: int
    var limit: int
    var waiters: seq<Request>
    var ready: seq<nat>  // threads passed to ut_activate, in order

    ghost function View(): Sem reads this { Sem(units, limit, waiters) }

    constructor (units: int, limit: int)
      ensures View() == Sem(units, limit, []) && ready == []
    {
      this.units, this.limit, this.waiters, this.ready := units, limit, [], [];
    }

    /** Returns whether the caller keeps running; otherwise it is queued and deactivated. */
    method Acquire(self: nat, n: int) returns (kept: bool)
      modifies this
      ensures kept == Grants(old(View()), Request(self, n))
      ensures View() == Wait(old(View()), Request(self, n)) && ready == old(ready)
    {
      if waiters == [] && units >= n {
        units := units - n;
        return true;
      }
      waiters := waiters + [Request(self, n)];
      return false;
    }

    method Release(n: nat)
      requires units + n <= INT_MAX
      modifies this
      ensures View() == Post(old(View()), n)
      ensures ready == old(ready) + Threads(old(waiters)[..Released(old(View()), n)])
    {
      units := units + n;
      if units > limit {
        units := limit;
      }
      var k := ReleaseLoop();
    }

    /** The loop of `sem_post`; k counts the threads it activates. */
    method ReleaseLoop() returns (ghost k: nat)
      modifies this`units, this`waiters, this`ready
      ensures k == Fit(old(units), old(waiters))
      ensures units == old(units) - Total(old(waiters)[..k]) && waiters == old(waiters)[k..]
      ensures ready == old(ready) + Threads(old(waiters)[..k])
    {
      ghost var u, ws := units, waiters;
      k := 0;
      while units > 0 && waiters != []
        invariant k <= |ws| && waiters == ws[k..]
        invariant units == u - Total(ws[..k])
        invariant Fit(u, ws) == k + Fit(units, waiters)
        invariant ready == old(ready) + Threads(ws[..k])
        decreases |waiters|
      {
        var first := waiters[0];
        if units < first.units {
          break;
        }
        units := units - first.units;
        waiters := waiters[1..];
        ready := ready + [first.thread];
        OneMore(ws, k);
        k := k + 1;
      }
    }
  }
}
