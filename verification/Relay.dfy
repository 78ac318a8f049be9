/**
 The relay of one client request: the main loop with its queue waits, the fallback chain, the
 slots taken on the way and the error that is finally returned, proved against `RelaySpec`.

 The local variables of `Relay` and its request context are a few records, changed step by step.
 */
module Relay {
  import opened Basics
  import opened RelaySpec

  // ----- the trace of slots and upstream requests

  datatype Slot = Rpm(channel: int) | Concurrency(channel: int) | GlobalRpm

  datatype Event =
    | Acquire(slot: Slot)
    | Release(slot: Slot)
    | Dispatch(phase: Phase, sent: Sent)

  function After(held: multiset<Slot>, e: Event): multiset<Slot> {
    match e
    case Acquire(slot) => held + multiset{slot}
    case Release(slot) => held - multiset{slot}
    case Dispatch(_, _) => held
  }

  function Outstanding(trace: seq<Event>): multiset<Slot> {
    if trace == [] then multiset{} else After(Outstanding(trace[..|trace| - 1]), trace[|trace| - 1])
  }

  /** Every release gives back a slot that is held at that moment. */
  predicate Legal(trace: seq<Event>) {
    trace != [] ==>
      && Legal(trace[..|trace| - 1])
      && (trace[|trace| - 1].Release? ==> trace[|trace| - 1].slot in Outstanding(trace[..|trace| - 1]))
  }

  function Add(log: Log, e: Event): Log {
    if !e.Dispatch? then log else
    match e.phase
    case Main => log.(main := log.main + [e.sent])
    case Extra => log.(extra := log.extra + [e.sent])
    case Chain => log.(chain := log.chain + [e.sent])
  }

  const NOTHING_SENT := Log([], [], [])

  function LogOf(trace: seq<Event>): Log {
    if trace == [] then NOTHING_SENT else Add(LogOf(trace[..|trace| - 1]), trace[|trace| - 1])
  }

  // ----- the slots a request holds

  /** acquiredTrackers, acquiredConcurrency and globalRpmCounted, with everything done so far. */
  datatype Ledger = Ledger(rpm: seq<Slot>, concurrency: seq<Slot>, counted: bool, trace: seq<Event>)

  function Held(rpm: seq<Slot>, concurrency: seq<Slot>, counted: bool): multiset<Slot> {
    multiset(rpm) + multiset(concurrency) + if counted then multiset{GlobalRpm} else multiset{}
  }

  /** The slots the request holds are exactly those acquired and not released. */
  predicate Exact(l: Ledger) {
    Legal(l.trace) && Outstanding(l.trace) == Held(l.rpm, l.concurrency, l.counted)
  }

  method Emit(trace: seq<Event>, e: Event) returns (trace': seq<Event>)
    requires Legal(trace) && (e.Release? ==> e.slot in Outstanding(trace))
    ensures Legal(trace') && Outstanding(trace') == After(Outstanding(trace), e)
    ensures LogOf(trace') == Add(LogOf(trace), e)
  {
    assert (trace + [e])[..|trace + [e]| - 1] == trace;
    trace' := trace + [e];
  }

  method TakeRpm(l: Ledger, x: Slot) returns (l': Ledger)
    requires Exact(l)
    ensures Exact(l') && LogOf(l'.trace) == LogOf(l.trace)
    ensures l'.rpm == l.rpm + [x] && l'.concurrency == l.concurrency && l'.counted == l.counted
  {
    var trace := Emit(l.trace, Acquire(x));
    l' := l.(rpm := l.rpm + [x], trace := trace);
  }

  method TakeConcurrency(l: Ledger, x: Slot) returns (l': Ledger)
    requires Exact(l)
    ensures Exact(l') && LogOf(l'.trace) == LogOf(l.trace)
    ensures l'.rpm == l.rpm && l'.concurrency == l.concurrency + [x] && l'.counted == l.counted
  {
    var trace := Emit(l.trace, Acquire(x));
    l' := l.(concurrency := l.concurrency + [x], trace := trace);
  }

  lemma TakeOut(left: seq<Slot>, x: Slot, right: seq<Slot>)
    ensures multiset(left + [x] + right) == multiset(left + right) + multiset{x}
  {}

  lemma HeldLess(left: seq<Slot>, x: Slot, right: seq<Slot>, other: seq<Slot>, counted: bool)
    ensures x in Held(left + [x] + right, other, counted)
    ensures Held(left + [x] + right, other, counted) - multiset{x} == Held(left + right, other, counted)
  {
    TakeOut(left, x, right);
  }

  lemma HeldEither(rpm: seq<Slot>, concurrency: seq<Slot>, counted: bool)
    ensures Held(rpm, concurrency, counted) == Held(concurrency, rpm, counted)
  {}

  /** Releases the RPM slot between `left` and `right`. */
  method DropRpm(l: Ledger, left: seq<Slot>, x: Slot, right: seq<Slot>) returns (l': Ledger)
    requires Exact(l) && l.rpm == left + [x] + right
    ensures Exact(l') && LogOf(l'.trace) == LogOf(l.trace)
    ensures l'.rpm == left + right && l'.concurrency == l.concurrency && l'.counted == l.counted
  {
    HeldLess(left, x, right, l.concurrency, l.counted);
    var trace := Emit(l.trace, Release(x));
    l' := l.(rpm := left + right, trace := trace);
  }

  method DropConcurrency(l: Ledger, left: seq<Slot>, x: Slot, right: seq<Slot>) returns (l': Ledger)
    requires Exact(l) && l.concurrency == left + [x] + right
    ensures Exact(l') && LogOf(l'.trace) == LogOf(l.trace)
    ensures l'.rpm == l.rpm && l'.concurrency == left + right && l'.counted == l.counted
  {
    HeldLess(left, x, right, l.rpm, l.counted);
    HeldEither(l.rpm, l.concurrency, l.counted);
    HeldEither(l.rpm, left + right, l.counted);
    var trace := Emit(l.trace, Release(x));
    l' := l.(concurrency := left + right, trace := trace);
  }

  /** Takes both limits of a channel or neither; a partial success is given back at once. */
  method AcquireChannelSlots(l: Ledger, c: Channel, rpmOk: bool, concurrencyOk: bool) returns (l': Ledger, ok: bool)
    requires Exact(l)
    ensures Exact(l') && LogOf(l'.trace) == LogOf(l.trace) && l'.counted == l.counted
    ensures ok <==> (c.limitsRpm ==> rpmOk) && (c.limitsConcurrency ==> concurrencyOk)
    ensures l'.rpm == if ok && c.limitsRpm then l.rpm + [Rpm(c.id)] else l.rpm
    ensures l'.concurrency == if ok && c.limitsConcurrency then l.concurrency + [Concurrency(c.id)] else l.concurrency
  {
    l' := l;
    if c.limitsRpm {
      if !rpmOk { return l, false; }
      l' := TakeRpm(l, Rpm(c.id));
    }
    if c.limitsConcurrency {
      if !concurrencyOk {
        if c.limitsRpm { l' := DropRpm(l', l.rpm, Rpm(c.id), []); }
        return l', false;
      }
      l' := TakeConcurrency(l', Concurrency(c.id));
    }
    return l', true;
  }

  /** Counts an admitted request once in the global tracker. */
  method CountGlobally(l: Ledger, c: Channel) returns (l': Ledger)
    requires Exact(l)
    ensures Exact(l') && LogOf(l'.trace) == LogOf(l.trace)
    ensures l'.counted <==> l.counted || c.countsForOverload
    ensures l'.rpm == l.rpm && l'.concurrency == l.concurrency
  {
    if l.counted || !c.countsForOverload { return l; }
    var trace := Emit(l.trace, Acquire(GlobalRpm));
    return l.(counted := true, trace := trace);
  }

  function ButLast(s: seq<Slot>): seq<Slot> {
    if s == [] then [] else s[..|s| - 1]
  }

  method PopRpm(l: Ledger) returns (l': Ledger)
    requires Exact(l)
    ensures Exact(l') && LogOf(l'.trace) == LogOf(l.trace)
    ensures l'.rpm == ButLast(l.rpm) && l'.concurrency == l.concurrency && l'.counted == l.counted
  {
    if l.rpm == [] { return l; }
    var n := |l.rpm| - 1;
    l' := DropRpm(l, l.rpm[..n], l.rpm[n], []);
  }

  method PopConcurrency(l: Ledger) returns (l': Ledger)
    requires Exact(l)
    ensures Exact(l') && LogOf(l'.trace) == LogOf(l.trace)
    ensures l'.rpm == l.rpm && l'.concurrency == ButLast(l.concurrency) && l'.counted == l.counted
  {
    if l.concurrency == [] { return l; }
    var n := |l.concurrency| - 1;
    l' := DropConcurrency(l, l.concurrency[..n], l.concurrency[n], []);
  }

  /** Releases the most recent slot of each kind. */
  method HandBack(l: Ledger) returns (l': Ledger)
    requires Exact(l)
    ensures Exact(l') && LogOf(l'.trace) == LogOf(l.trace) && l'.counted == l.counted
    ensures l'.rpm == ButLast(l.rpm) && l'.concurrency == ButLast(l.concurrency)
  {
    l' := PopRpm(l);
    l' := PopConcurrency(l');
  }

  /** The deferred release of everything at the end of the request. */
  method ReleaseAll(l: Ledger) returns (trace: seq<Event>)
    requires Exact(l)
    ensures Legal(trace) && Outstanding(trace) == multiset{} && LogOf(trace) == LogOf(l.trace)
  {
    var l' := ReleaseRpm(l);
    l' := ReleaseConcurrency(l');
    trace := l'.trace;
    if l'.counted { trace := Emit(trace, Release(GlobalRpm)); }
  }

  method ReleaseRpm(l: Ledger) returns (l': Ledger)
    requires Exact(l)
    ensures Exact(l') && LogOf(l'.trace) == LogOf(l.trace)
    ensures l'.rpm == [] && l'.concurrency == l.concurrency && l'.counted == l.counted
  {
    l' := l;
    while l'.rpm != []
      invariant Exact(l') && LogOf(l'.trace) == LogOf(l.trace)
      invariant l'.concurrency == l.concurrency && l'.counted == l.counted
      decreases |l'.rpm|
    {
      assert l'.rpm == [] + [l'.rpm[0]] + l'.rpm[1..];
      l' := DropRpm(l', [], l'.rpm[0], l'.rpm[1..]);
    }
  }

  method ReleaseConcurrency(l: Ledger) returns (l': Ledger)
    requires Exact(l)
    ensures Exact(l') && LogOf(l'.trace) == LogOf(l.trace)
    ensures l'.rpm == l.rpm && l'.concurrency == [] && l'.counted == l.counted
  {
    l' := l;
    while l'.concurrency != []
      invariant Exact(l') && LogOf(l'.trace) == LogOf(l.trace)
      invariant l'.rpm == l.rpm && l'.counted == l.counted
      decreases |l'.concurrency|
    {
      assert l'.concurrency == [] + [l'.concurrency[0]] + l'.concurrency[1..];
      l' := DropConcurrency(l', [], l'.concurrency[0], l'.concurrency[1..]);
    }
  }

  // ----- routing state

  /** UsedChannelIds and the routing flags of the request context. */
  datatype Route = Route(used: seq<int>, triggered: bool, forceNext: bool, source: bool, overload: bool, daily: bool) {
    predicate Transfer() { overload || daily }
  }

  datatype Progress = Progress(gone: bool, cancelled: bool, streamed: bool, emergency: bool,
                               overloadChecked: bool, rpmFull: bool, wasQueued: bool, billing: Billing)

  /** How every request starts: nothing used, no routing flag set. */
  const FRESH_ROUTE := Route([], false, false, false, false, false)

  /** The retry counter and the queue waits that the deadline still allows. */
  datatype Queue = Queue(retry: int, keepRetry: bool, waits: nat)

  /** setRelayFallbackSource: an emergency channel always falls back. */
  predicate MayFallBack(c: Channel) { c.supportsFallback || c.emergency }

  /** ensureRelayPreConsume: a session that is open is used again. */
  function Charged(b: Billing, charge: Charge): Option<Billing> {
    if b.Session? then Some(b) else
    match charge
    case Refused => None
    case FreeModel => Some(NoSession)
    case Opened(held) => Some(Session(held))
  }

  /**
   Channel selection. With a fallback forced, the first unused fallback channel is taken; one
   whose context cannot be set up is marked used and reported as an error.
   */
  method GetChannel(route: Route, fallbacks: seq<Channel>, choice: Choice) returns (route': Route, r: Selection)
    ensures var unused := Unused(fallbacks, route.used);
      if (route.Transfer() || (!route.triggered && route.source && route.forceNext)) && unused != [] then
        if choice.setupOk then r == Chosen(unused[0]) && route' == route.(triggered := true)
        else r == NoChannel && route' == route.(used := route.used + [unused[0].id], forceNext := false)
      else r == choice.selection && route' == route.(forceNext := route'.forceNext) && (route'.forceNext ==> route.forceNext)
  {
    var force := route.Transfer();
    route' := route;
    if (force || !route.triggered) && (route.source || force) && (route.forceNext || force) {
      var available := Unused(fallbacks, route.used);
      if |available| > 0 {
        if !choice.setupOk {
          return route.(used := route.used + [available[0].id], forceNext := false), NoChannel;
        }
        return route.(triggered := true), Chosen(available[0]);
      }
      route' := route.(forceNext := false);
    }
    return route', choice.selection;
  }

  // ----- the main loop

  /** The state in which a round selects its channel, and from which it sends: nothing used, paid or sent. */
  predicate Ready(route: Route, p: Progress) {
    && route.used == [] && route.triggered == route.Transfer() && (route.forceNext ==> route.Transfer())
    && p == Progress(false, false, false, false, p.overloadChecked, false, p.wasQueued, NoSession)
  }

  /** The context that the specification of a round sees in this state. */
  predicate Fits(x: Context, route: Route, p: Progress, q: Queue) {
    x.canWait == (q.waits > 0) && x.checked == p.overloadChecked && x.source == route.source && x.queued == p.wasQueued
  }

  /** A fallback may follow, as far as the request itself is concerned. */
  predicate Open(route: Route, p: Progress, fallbacks: seq<Channel>) {
    && !p.cancelled && !p.gone && !p.streamed
    && (route.source || route.Transfer()) && Unused(fallbacks, route.used) != []
  }

  /** The state left behind is what the facts say. */
  predicate Leaves(f: Facts, route: Route, p: Progress) {
    && route.used == f.used && p.billing == f.billing && p.wasQueued == f.queued
    && p.emergency == f.emergency && p.cancelled == f.cancelled
  }

  /** A round that is over before it sends anything. */
  predicate Ends(v: Verdict, x: Context, flow: Flow, route: Route, p: Progress, waits: nat, q: Queue, fallbacks: seq<Channel>) {
    match v
    case Waits(checked, source) =>
      && flow == Again && Ready(route, p) && !route.Transfer() && route.source == source
      && p.overloadChecked == checked && p.wasQueued && q.retry == 0 && q.keepRetry && q.waits + 1 == waits
    case Answered(_) => false
    case Ended(open, f) =>
      && flow == Stop(f.error) && Open(route, p, fallbacks) == open && Leaves(f, route, p)
      && f.price == x.price && f.sent.None? && !f.primary
  }

  /** `Stop(None)`: the loop ends because a fallback channel was handed back, without an error. */
  datatype Flow = Proceed(channel: Channel) | Again | Stop(error: Option<Error>) | Done

  /** A granted wait starts the selection over with no channel used; a refused one is an error. */
  method WaitForQueue(route: Route, p: Progress, q: Queue, r: Round)
    returns (route': Route, p': Progress, q': Queue, flow: Flow)
    ensures flow == if !p.gone && r.dequeued && q.waits > 0 then Again
                    else Stop(Some(if p'.gone then CANCELLED else QUEUE_TIMEOUT))
    ensures flow == Again ==>
      q' == Queue(0, true, q.waits - 1) && route' == route.(used := []) && p' == p.(wasQueued := true, rpmFull := false)
    ensures flow != Again ==> q' == q && route' == route && p' == p.(wasQueued := true, gone := p.gone || r.cancelInQueue)
  {
    route', p', q' := route, p.(wasQueued := true), q;
    if !p.gone && r.dequeued && q.waits > 0 {
      return route.(used := []), p'.(rpmFull := false), Queue(0, true, q.waits - 1), Again;
    }
    p' := p'.(gone := p.gone || r.cancelInQueue);
    flow := Stop(Some(if p'.gone then CANCELLED else QUEUE_TIMEOUT));
  }

  /** The top of an iteration: cancellation, the daily limit, channel selection, queueing. */
  method Select(route: Route, p: Progress, q: Queue, fallbacks: seq<Channel>, r: Round, ghost x: Context)
    returns (route': Route, p': Progress, q': Queue, flow: Flow)
    ensures !flow.Done? && (flow.Stop? ==> flow.error.Some?)
    ensures flow.Proceed? ==> q' == q
    ensures flow.Again? ==> q' == Queue(0, true, q'.waits) && q'.waits < q.waits
    ensures p.gone || r.cancelNow ==>
      flow == Stop(Some(CANCELLED)) && p' == p.(gone := true, cancelled := true) && route' == route
    ensures flow.Proceed? && fallbacks != [] && r.dailyExceeded ==> route'.daily
    ensures flow.Proceed? && route'.Transfer() && Unused(fallbacks, route.used) != [] ==>
      flow.channel == Unused(fallbacks, route.used)[0] && route'.triggered
    // from the start of a round: the rest of the round decides, or the round is over
    ensures Ready(route, p) && !route.Transfer() && Fits(x, route, p, q) && !r.cancelNow ==>
      var v := RoundEnd(fallbacks, r, x);
      if flow.Proceed? then
        && Ready(route', p') && Fits(x, route', p', q)
        && (route'.Transfer() ==> fallbacks != [] && flow.channel == fallbacks[0])
        && v == ChosenEnd(fallbacks, flow.channel, route'.triggered, r, x)
      else Ends(v, x, flow, route', p', q.waits, q', fallbacks)
  {
    route', p', q' := route, p.(gone := p.gone || r.cancelNow), q;
    if p'.gone { return route, p'.(cancelled := true), q, Stop(Some(CANCELLED)); }
    var selection;
    route', selection := Pick(route, fallbacks, r.dailyExceeded, r.choice);
    if selection.Chosen? { return route', p', q, Proceed(selection.channel); }
    route', p', q', flow := NotSelected(route', p', q, selection, fallbacks, r, x);
  }

  /** The daily limit, then channel selection. */
  method Pick(route: Route, fallbacks: seq<Channel>, dailyExceeded: bool, choice: Choice) returns (route': Route, selection: Selection)
    ensures selection.Chosen? && fallbacks != [] && dailyExceeded ==> route'.daily
    ensures selection.Chosen? && route'.Transfer() && Unused(fallbacks, route.used) != [] ==>
      selection.channel == Unused(fallbacks, route.used)[0] && route'.triggered
    ensures route.used == [] && !route.Transfer() && !route.forceNext ==>
      if fallbacks == [] || !dailyExceeded then selection == choice.selection && route' == route
      else if choice.setupOk then
        selection == Chosen(fallbacks[0]) && route' == route.(daily := true, forceNext := true, triggered := true)
      else
        selection == NoChannel && route' == route.(daily := true, forceNext := false, used := [fallbacks[0].id])
  {
    UnusedNone(fallbacks);
    route' := route;
    if !route.daily && |fallbacks| > 0 && dailyExceeded {
      assert [] + [fallbacks[0].id] == [fallbacks[0].id];
      route' := route.(daily := true, forceNext := true);
    }
    route', selection := GetChannel(route', fallbacks, choice);
  }

  /** No channel: a request without free channels waits in the queue, any other fails. */
  method NotSelected(route: Route, p: Progress, q: Queue, selection: Selection, fallbacks: seq<Channel>, r: Round, ghost x: Context)
    returns (route': Route, p': Progress, q': Queue, flow: Flow)
    requires !selection.Chosen?
    ensures flow.Again? || (flow.Stop? && flow.error.Some?)
    ensures flow.Again? ==> q' == Queue(0, true, q'.waits) && q'.waits < q.waits
    ensures Ready(route, p) && !route.Transfer() && Fits(x, route, p, q) ==>
      Ends(UnselectedEnd(fallbacks, selection, r, x), x, flow, route', p', q.waits, q', fallbacks)
    ensures selection.AllRpmFull? || p.rpmFull ==>
      p'.wasQueued && (flow == Again || flow == Stop(Some(if p'.gone then CANCELLED else QUEUE_TIMEOUT)))
    ensures !p.rpmFull && selection.NoChannel? ==>
      flow == Stop(Some(LOCAL_FAILURE)) && p' == p && route' == if r.affinity.Some? then route.(source := r.affinity.value) else route
  {
    UnusedNone(fallbacks);
    route', p', q' := if r.affinity.Some? then route.(source := r.affinity.value) else route, p, q;
    if selection.AllRpmFull? || p.rpmFull {
      route', p', q', flow := WaitForQueue(route', p', q, r);
    } else {
      flow := Stop(Some(LOCAL_FAILURE));
    }
  }

  /** What full slots do to the routing state. */
  predicate Parked(route: Route, p: Progress, q: Queue, c: Channel, r: Round, route': Route, p': Progress, q': Queue, flow: Flow) {
    if route.triggered then
      && flow == Stop(None) && q' == q
      && route' == route.(triggered := false, used := route.used + [c.id]) && p' == p.(rpmFull := false)
    else
      var marked := if r.affinity.Some? then route.(source := MayFallBack(c)) else route.(used := route.used + [c.id]);
      if !p.gone && r.dequeued && q.waits > 0 then
        && flow == Again && q' == Queue(0, true, q.waits - 1)
        && route' == marked.(used := []) && p' == p.(wasQueued := true, rpmFull := false)
      else
        && flow == Stop(Some(if p'.gone then CANCELLED else QUEUE_TIMEOUT)) && q' == q
        && route' == marked && p' == p.(wasQueued := true, rpmFull := true, gone := p.gone || r.cancelInQueue)
  }

  lemma ParkedEnds(route: Route, p: Progress, q: Queue, c: Channel, fallbacks: seq<Channel>, r: Round, x: Context,
                   route': Route, p': Progress, q': Queue, flow: Flow)
    requires Parked(route, p, q, c, r, route', p', q', flow) && !SlotsFree(c, r.slots)
    requires Ready(route, p) && Fits(x, route, p, q)
    ensures Ends(SlotsEnd(fallbacks, c, route.triggered, r, x), x, flow, route', p', q.waits, q', fallbacks)
  {
    assert route.used + [c.id] == [c.id];
    if route.triggered {
      HandedBackEnds(route, p, c, fallbacks, x, route', p', q);
    } else {
      ParkedQueueEnds(route, p, q, c, fallbacks, r, x, route', p', q', flow);
    }
  }

  lemma ParkedQueueEnds(route: Route, p: Progress, q: Queue, c: Channel, fallbacks: seq<Channel>, r: Round, x: Context,
                        route': Route, p': Progress, q': Queue, flow: Flow)
    requires Parked(route, p, q, c, r, route', p', q', flow) && !route.triggered && route.used + [c.id] == [c.id]
    requires Ready(route, p) && Fits(x, route, p, q)
    ensures var y := if r.affinity.Some? then x.(source := c.supportsFallback || c.emergency) else x;
      Ends(QueueEnd(fallbacks, r, y, if r.affinity.Some? then [] else [c.id]), x, flow, route', p', q.waits, q', fallbacks)
  {
    var marked := if r.affinity.Some? then route.(source := c.supportsFallback || c.emergency) else route.(used := [c.id]);
    QueuedEnds(marked, p, q, fallbacks, r, x.(source := marked.source), route', p', q', flow);
  }

  lemma HandedBackEnds(route: Route, p: Progress, c: Channel, fallbacks: seq<Channel>, x: Context, route': Route, p': Progress, q: Queue)
    requires Ready(route, p) && route.triggered && x.queued == p.wasQueued
    requires route' == route.(triggered := false, used := [c.id]) && p' == p.(rpmFull := false)
    ensures Ends(Stopped(x, [c.id], None, OthersLeft(fallbacks, c.id)), x, Stop(None), route', p', q.waits, q, fallbacks)
  {
  }

  /** A queue wait from a state with at most one channel marked. */
  lemma QueuedEnds(marked: Route, p: Progress, q: Queue, fallbacks: seq<Channel>, r: Round, x: Context,
                   route': Route, p': Progress, q': Queue, flow: Flow)
    requires Ready(marked.(used := []), p) && !marked.Transfer() && Fits(x, marked, p, q)
    requires if r.dequeued && q.waits > 0 then
        && flow == Again && q' == Queue(0, true, q.waits - 1)
        && route' == marked.(used := []) && p' == p.(wasQueued := true)
      else
        && flow == Stop(Some(if p'.gone then CANCELLED else QUEUE_TIMEOUT))
        && route' == marked && p' == p.(wasQueued := true, rpmFull := true, gone := r.cancelInQueue)
    ensures Ends(QueueEnd(fallbacks, r, x, marked.used), x, flow, route', p', q.waits, q', fallbacks)
  {
  }

  /** Slots are full: a fallback channel is handed back, any other request waits in the queue. */
  method SlotsFull(route: Route, p: Progress, q: Queue, c: Channel, r: Round)
    returns (route': Route, p': Progress, q': Queue, flow: Flow)
    requires 0 <= q.retry
    ensures flow == Again || flow.Stop?
    ensures flow == Again ==> q' == Queue(0, true, q'.waits) && q'.waits < q.waits
    ensures flow == Stop(None) <==> route.triggered
    ensures Parked(route, p, q, c, r, route', p', q', flow)
  {
    if route.triggered {
      return route.(triggered := false, used := route.used + [c.id]), p.(rpmFull := false), q, Stop(None);
    }
    // the retry counter is never below the budget of zero, so the request queues at once
    route' := if r.affinity.Some? then route.(source := MayFallBack(c)) else route.(used := route.used + [c.id]);
    route', p', q', flow := WaitForQueue(route', p.(rpmFull := true), q, r);
  }

  /** While the gateway is overloaded, a counted channel is replaced by an unused fallback. */
  method Divert(route: Route, p: Progress, c: Channel, fallbacks: seq<Channel>, r: Round)
    returns (route': Route, p': Progress, selection: Selection)
    ensures p' == p.(overloadChecked := p.overloadChecked || c.countsForOverload)
    ensures var unused := Unused(fallbacks, route.used);
      if Diverts(fallbacks, c, r, p.overloadChecked) then
        && route'.overload
        && (unused != [] ==>
              if r.diverted.setupOk then
                selection == Chosen(unused[0]) && route' == route.(overload := true, forceNext := true, triggered := true)
              else
                selection == NoChannel && route' == route.(overload := true, forceNext := false, used := route.used + [unused[0].id]))
      else selection == Chosen(c) && route' == route
  {
    route', p' := route, p;
    if p.overloadChecked || !c.countsForOverload { return route, p, Chosen(c); }
    p' := p.(overloadChecked := true);
    if !r.overloaded || |fallbacks| == 0 { return route, p', Chosen(c); }
    route', selection := GetChannel(route.(overload := true, forceNext := true), fallbacks, r.diverted);
  }

  /** Overload diversion, slots, and the hand-back of a fallback channel outside a transfer. */
  method Admit(l: Ledger, route: Route, p: Progress, q: Queue, selected: Channel, fallbacks: seq<Channel>, r: Round, ghost x: Context)
    returns (l': Ledger, route': Route, p': Progress, q': Queue, flow: Flow)
    requires Exact(l) && 0 <= q.retry && l.rpm == [] && l.concurrency == []
    ensures Exact(l') && LogOf(l'.trace) == LogOf(l.trace)
    ensures !flow.Done?
    // an admitted request holds the slots of its channel, any other holds none
    ensures l'.rpm == if flow.Proceed? && flow.channel.limitsRpm then [Rpm(flow.channel.id)] else []
    ensures l'.concurrency == if flow.Proceed? && flow.channel.limitsConcurrency then [Concurrency(flow.channel.id)] else []
    ensures flow.Proceed? && flow.channel.countsForOverload ==> l'.counted
    ensures flow.Proceed? && route'.triggered ==> route'.Transfer()
    ensures Ready(route, p) && Fits(x, route, p, q) && (route.Transfer() ==> fallbacks != [] && selected == fallbacks[0]) ==>
      var v := ChosenEnd(fallbacks, selected, route.triggered, r, x);
      if flow.Proceed? then
        && Ready(route', p') && Fits(x.(checked := p'.overloadChecked), route', p', q)
        && v == SendEnd(fallbacks, flow.channel, route'.triggered, r.upstream, x.(checked := p'.overloadChecked))
      else Ends(v, x, flow, route', p', q.waits, q', fallbacks)
    ensures flow.Proceed? ==> q' == q
    ensures flow.Again? ==> q' == Queue(0, true, q'.waits) && q'.waits < q.waits
  {
    l', q' := l, q;
    route', p', flow := Confirm(route, p, q, selected, fallbacks, r, x);
    if flow.Stop? { return; }
    ghost var mid, midP := route', p';
    var c := flow.channel;
    l', route', p', q', flow := TakeSlots(l, route', p', q, c, r);
    ghost var y := x.(checked := midP.overloadChecked);
    if Ready(mid, midP) && Fits(y, mid, midP, q) && (mid.Transfer() ==> fallbacks != [] && c == fallbacks[0]) && !flow.Proceed? {
      ParkedEnds(mid, midP, q, c, fallbacks, r, y, route', p', q', flow);
    }
  }

  /** The input limit of a normally selected channel, then the overload check. */
  method Confirm(route: Route, p: Progress, q: Queue, selected: Channel, fallbacks: seq<Channel>, r: Round, ghost x: Context)
    returns (route': Route, p': Progress, flow: Flow)
    ensures flow.Proceed? || (flow.Stop? && flow.error.Some?)
    ensures Ready(route, p) && Fits(x, route, p, q) && (route.Transfer() ==> fallbacks != [] && selected == fallbacks[0]) ==>
      var v := ChosenEnd(fallbacks, selected, route.triggered, r, x);
      if flow.Proceed? then
        && Ready(route', p') && Fits(x.(checked := p'.overloadChecked), route', p', q)
        && (route'.Transfer() ==> fallbacks != [] && flow.channel == fallbacks[0])
        && v == SlotsEnd(fallbacks, flow.channel, route'.triggered, r, x.(checked := p'.overloadChecked))
      else Ends(v, x, flow, route', p', q.waits, q, fallbacks)
  {
    UnusedNone(fallbacks);
    if !route.triggered && r.tooLong { return route, p, Stop(Some(CONTEXT_TOO_LONG)); }
    var selection;
    route', p', selection := Divert(route, p, selected, fallbacks, r);
    if selection.Chosen? {
      flow := Proceed(selection.channel);
    } else {
      assert fallbacks != [] ==> [] + [fallbacks[0].id] == [fallbacks[0].id];
      flow := Stop(Some(LOCAL_FAILURE));
    }
  }

  /** Slots for the chosen channel; a fallback channel outside a transfer is handed back. */
  method TakeSlots(l: Ledger, route: Route, p: Progress, q: Queue, c: Channel, r: Round)
    returns (l': Ledger, route': Route, p': Progress, q': Queue, flow: Flow)
    requires Exact(l) && 0 <= q.retry && l.rpm == [] && l.concurrency == []
    ensures Exact(l') && LogOf(l'.trace) == LogOf(l.trace)
    ensures !flow.Done?
    ensures l'.rpm == if flow.Proceed? && c.limitsRpm then [Rpm(c.id)] else []
    ensures l'.concurrency == if flow.Proceed? && c.limitsConcurrency then [Concurrency(c.id)] else []
    ensures flow.Proceed? ==> flow.channel == c && q' == q && (c.countsForOverload ==> l'.counted)
    // a fallback channel is handed back exactly outside a transfer or when its slots are full
    ensures flow == Stop(None) <==> route.triggered && (!route.Transfer() || !SlotsFree(c, r.slots))
    ensures flow.Proceed? <==> SlotsFree(c, r.slots) && (route.triggered ==> route.Transfer())
    ensures !SlotsFree(c, r.slots) ==> Parked(route, p, q, c, r, route', p', q', flow)
    ensures flow.Proceed? ==>
      SlotsFree(c, r.slots) && route' == route && p' == p.(rpmFull := !c.limitsRpm && !c.limitsConcurrency && p.rpmFull)
    ensures flow.Proceed? && route'.triggered ==> route'.Transfer()
    ensures flow.Again? ==> q' == Queue(0, true, q'.waits) && q'.waits < q.waits
  {
    l', route', p', q' := l, route, p, q;
    if c.limitsRpm || c.limitsConcurrency {
      var ok;
      l', ok := AcquireChannelSlots(l, c, r.slots.rpmOk, r.slots.concurrencyOk);
      if !ok {
        route', p', q', flow := SlotsFull(route, p, q, c, r);
        return;
      }
      p' := p.(rpmFull := false);
    }
    l' := CountGlobally(l', c);
    if route.triggered && !route.Transfer() {
      if c.limitsRpm || c.limitsConcurrency { l' := HandBack(l'); }
      return l', route.(triggered := false), p', q, Stop(None);
    }
    flow := Proceed(c);
  }

  const MAX_RETRY_TIMES := 0

  /** Whether the retry policy allows another round; with no retries left it never does. */
  predicate ShouldRetry(gone: bool, policy: bool, retryTimes: int) {
    !gone && retryTimes > 0 && policy
  }

  /** The errors remembered while the request runs: newAPIError and its two first ones. */
  datatype Errors = Errors(last: Option<Error>, firstSpecific: Option<Error>, firstPrimary: Option<Error>)

  const NO_ERRORS := Errors(None, None, None)

  /** A failed attempt: a network failure is not specific, a fallback's error is not primary. */
  function ErrorsOf(e: Error, fallback: bool): Errors {
    Errors(Some(e), if e.code.DoRequestFailed? then None else Some(e), if fallback then None else Some(e))
  }

  /** Bookkeeping after a failed upstream request. The retry budget is spent, so the loop ends. */
  method PrimaryFailed(route: Route, p: Progress, q: Queue, c: Channel, u: Upstream, policy: bool)
    returns (route': Route, p': Progress, errors: Errors, flow: Flow)
    requires u.reply.Fails? && 0 <= q.retry
    ensures flow == Stop(errors.last)
    ensures q.retry == 0 ==> AfterFailure(route, p, c, u, route', p')
    ensures FailureNoted(route, p, u, errors)
  {
    var e := Error(if route.triggered then Fallback else Primary, u.reply.code, u.reply.status, u.reply.cancelled);
    var cancelled;
    route', p', cancelled := NoteFailure(route, p, q, c, u);
    errors := if cancelled then NO_ERRORS.(last := Some(CANCELLED)) else ErrorsOf(e, route.triggered);
    var retry := !cancelled && !p'.streamed && ShouldRetry(p'.gone, policy, MAX_RETRY_TIMES - q.retry);
    flow := if retry then Again else Stop(errors.last);
  }

  method NoteFailure(route: Route, p: Progress, q: Queue, c: Channel, u: Upstream)
    returns (route': Route, p': Progress, cancelled: bool)
    requires u.reply.Fails?
    ensures cancelled <==> u.reply.cancelled || p.gone || u.cancelAfter
    ensures q.retry == 0 ==> AfterFailure(route, p, c, u, route', p')
  {
    route' := route;
    p' := p.(gone := p.gone || u.cancelAfter, streamed := p.streamed || u.reply.streamed);
    cancelled := u.reply.cancelled || p'.gone;
    if cancelled {
      p' := p'.(cancelled := true);
    } else if !route.triggered && q.retry == 0 {
      route' := route.(source := MayFallBack(c));
    }
  }

  /** What a failed primary request does to the routing state. */
  predicate AfterFailure(route: Route, p: Progress, c: Channel, u: Upstream, route': Route, p': Progress)
    requires u.reply.Fails?
  {
    var left := u.reply.cancelled || p.gone || u.cancelAfter;
    && p' == p.(gone := p.gone || u.cancelAfter, streamed := p.streamed || u.reply.streamed, cancelled := p.cancelled || left)
    && route' == if route.triggered || left then route else route.(source := c.supportsFallback || c.emergency)
  }

  /** The errors it leaves: a cancellation alone, or the upstream's own code and status. */
  predicate FailureNoted(route: Route, p: Progress, u: Upstream, errors: Errors)
    requires u.reply.Fails?
  {
    if u.reply.cancelled || p.gone || u.cancelAfter then errors == Errors(Some(CANCELLED), None, None)
    else
      var e := Some(Error(if route.triggered then Fallback else Primary, u.reply.code, u.reply.status, false));
      errors.last == e && (errors.firstSpecific.Some? ==> errors.firstSpecific == e)
      && errors.firstPrimary == if route.triggered then None else e
  }

  function Marked(route: Route, c: Channel): Route { route.(used := route.used + [c.id]) }

  /** The errors of a failed round are those of its one error. */
  predicate ErrorsFit(errors: Errors, f: Facts) {
    && errors.last == f.error
    && (errors.firstSpecific.Some? ==> errors.firstSpecific == f.error && !errors.firstSpecific.value.cancelled)
    && errors.firstPrimary == if f.primary then f.error else None
  }

  /** A round that may have sent its request. */
  predicate TurnEnds(v: Verdict, flow: Flow, route: Route, p: Progress, price: Price, errors: Errors, main: seq<Sent>,
                     waits: nat, q: Queue, fallbacks: seq<Channel>)
  {
    match v
    case Waits(checked, source) =>
      && flow == Again && Ready(route, p) && !route.Transfer() && route.source == source && errors == NO_ERRORS && main == []
      && p.overloadChecked == checked && p.wasQueued && q.retry == 0 && q.keepRetry && q.waits + 1 == waits
    case Answered(sent) => flow == Done && errors == NO_ERRORS && main == [sent]
    case Ended(open, f) =>
      && flow == Stop(f.error) && Open(route, p, fallbacks) == open && Leaves(f, route, p) && price == f.price
      && ErrorsFit(errors, f) && main == if f.sent.Some? then [f.sent.value] else []
  }

  /** Pricing, body and the upstream request of the admitted channel. */
  method SendPrimary(l: Ledger, route: Route, p: Progress, q: Queue, price: Price, c: Channel, u: Upstream, policy: bool)
    returns (l': Ledger, route': Route, p': Progress, price': Price, errors: Errors, flow: Flow)
    requires Exact(l) && 0 <= q.retry && LogOf(l.trace) == NOTHING_SENT
    ensures Exact(l') && LogOf(l'.trace) == Log(LogOf(l'.trace).main, [], [])
    ensures price' == if u.pricing.Some? then u.pricing.value else price
    ensures q.retry == 0 ==>
      if u.pricing.None? || Charged(p.billing, u.charge).None? || !u.bodyOk then
        Unsent(route, p, c, u, route', p', errors, flow) && LogOf(l'.trace) == NOTHING_SENT
      else
        && LogOf(l'.trace).main == [Sent(c.id, price')]
        && Sends(Marked(route, c), p.(billing := Charged(p.billing, u.charge).value), c, u, route', p', errors, flow)
  {
    l', route', p', price', errors := l, route, p, price, NO_ERRORS.(last := Some(LOCAL_FAILURE));
    flow := Stop(errors.last);
    if route.triggered { route' := Marked(route, c); }
    if u.pricing.None? { return; }
    price' := u.pricing.value;
    if Charged(p.billing, u.charge).None? { return; }
    p' := p.(billing := Charged(p.billing, u.charge).value);
    if !route.triggered { route' := Marked(route, c); }
    if !u.bodyOk { return; }
    l', route', p', errors, flow := SendNow(l, route', p', q, price', c, u, policy);
  }

  /** The round fails before the request: the channel is used if it is a fallback or was paid for. */
  predicate Unsent(route: Route, p: Progress, c: Channel, u: Upstream, route': Route, p': Progress, errors: Errors, flow: Flow) {
    var paid := u.pricing.Some? && Charged(p.billing, u.charge).Some?;
    && flow == Stop(Some(LOCAL_FAILURE)) && errors == Errors(Some(LOCAL_FAILURE), None, None)
    && route' == (if paid || route.triggered then Marked(route, c) else route)
    && p' == if paid then p.(billing := Charged(p.billing, u.charge).value) else p
  }

  /** The request is sent and answered, or fails. */
  predicate Sends(route: Route, p: Progress, c: Channel, u: Upstream, route': Route, p': Progress, errors: Errors, flow: Flow) {
    if u.reply.Succeeds? then flow == Done && errors == NO_ERRORS
    else
      && flow == Stop(errors.last) && FailureNoted(route, p, u, errors)
      && AfterFailure(route, p.(emergency := p.emergency || c.emergency), c, u, route', p')
  }

  /** The dispatch itself and the upstream's reply. */
  method SendNow(l: Ledger, route: Route, p: Progress, q: Queue, price: Price, c: Channel, u: Upstream, policy: bool)
    returns (l': Ledger, route': Route, p': Progress, errors: Errors, flow: Flow)
    requires Exact(l) && 0 <= q.retry && LogOf(l.trace) == NOTHING_SENT
    ensures Exact(l') && LogOf(l'.trace) == Log([Sent(c.id, price)], [], [])
    ensures q.retry == 0 ==> Sends(route, p, c, u, route', p', errors, flow)
  {
    var trace := Emit(l.trace, Dispatch(Main, Sent(c.id, price)));
    l', route', p' := l.(trace := trace), route, p.(emergency := p.emergency || c.emergency);
    if u.reply.Succeeds? { return l', route', p', NO_ERRORS, Done; }
    route', p', errors, flow := PrimaryFailed(route, p', q, c, u, policy);
  }

  lemma UnsentEnds(route: Route, p: Progress, q: Queue, c: Channel, fallbacks: seq<Channel>, u: Upstream, x: Context,
                   route': Route, p': Progress, price': Price, errors: Errors, flow: Flow)
    requires Ready(route, p) && Fits(x, route, p, q) && Unsent(route, p, c, u, route', p', errors, flow)
    requires u.pricing.None? || u.charge.Refused? || !u.bodyOk
    requires price' == if u.pricing.Some? then u.pricing.value else x.price
    ensures TurnEnds(SendEnd(fallbacks, c, route.triggered, u, x), flow, route', p', price', errors, [], q.waits, q, fallbacks)
  {
    UnusedNone(fallbacks);
    assert Marked(route, c).used == [c.id];
  }

  lemma SentEnds(route: Route, p: Progress, q: Queue, c: Channel, fallbacks: seq<Channel>, u: Upstream, x: Context,
                 route': Route, p': Progress, errors: Errors, flow: Flow)
    requires Ready(route, p) && Fits(x, route, p, q) && u.pricing.Some? && !u.charge.Refused? && u.bodyOk
    requires Sends(Marked(route, c), p.(billing := Charged(NoSession, u.charge).value), c, u, route', p', errors, flow)
    ensures TurnEnds(SendEnd(fallbacks, c, route.triggered, u, x), flow, route', p', u.pricing.value, errors,
                     [Sent(c.id, u.pricing.value)], q.waits, q, fallbacks)
  {
    assert Marked(route, c).used == [c.id];
    if u.reply.Fails? {
      FailureEnds(route, p, c, fallbacks, u, x.(price := u.pricing.value), route', p', errors, flow);
    }
  }

  lemma FailureEnds(route: Route, p: Progress, c: Channel, fallbacks: seq<Channel>, u: Upstream, x: Context,
                    route': Route, p': Progress, errors: Errors, flow: Flow)
    requires Ready(route, p) && u.reply.Fails? && !u.charge.Refused? && Marked(route, c).used == [c.id] && x.queued == p.wasQueued
    requires Sends(Marked(route, c), p.(billing := Charged(NoSession, u.charge).value), c, u, route', p', errors, flow)
    ensures var v := FailureEnd(fallbacks, c, route.triggered, u, x, if u.charge.Opened? then Session(u.charge.held) else NoSession);
      flow == Stop(v.facts.error) && Open(route', p', fallbacks) == v.open && Leaves(v.facts, route', p') && ErrorsFit(errors, v.facts)
  {
  }

  /**
   The main loop. However often the request waits in the queue, the slots held stay exact, and the
   loop ends, leaves and has sent exactly what its inputs say.
   */
  method MainLoop(gone: bool, waits: nat, price: Price, fallbacks: seq<Channel>, rounds: nat -> Round)
    returns (l': Ledger, route': Route, p': Progress, price': Price, errors: Errors, flow: Flow)
    ensures Exact(l') && LogOf(l'.trace) == Log(LogOf(l'.trace).main, [], [])
    ensures var end := MainEnd(fallbacks, rounds, gone, waits, price);
      Sound(end, false) && LoopEnds(end, flow, route', p', price', errors, LogOf(l'.trace).main, fallbacks)
  {
    l', route', price', errors := Ledger([], [], false, []), FRESH_ROUTE, price, NO_ERRORS;
    p' := Progress(gone, false, false, false, false, false, false, NoSession);
    var q, i := Queue(0, false, waits), 0;
    ghost var end := MainEnd(fallbacks, rounds, gone, waits, price);
    RoundsEndSound(fallbacks, rounds, 0, waits, false, false, false, price);
    while q.retry <= MAX_RETRY_TIMES
      invariant Exact(l') && LogOf(l'.trace) == NOTHING_SENT && l'.rpm == [] && l'.concurrency == []
      invariant q.retry == 0 && !q.keepRetry && errors == NO_ERRORS && price' == price
      invariant !route'.Transfer() && Ready(route', p'.(gone := false))
      invariant Sound(end, false) && end == Rest(route', p', fallbacks, rounds, i, q.waits, price)
      decreases q.waits
    {
      l', route', p', q, price', errors, flow := NextRound(l', route', p', q, price', fallbacks, rounds, i);
      i := i + 1;
      if flow.Done? || flow.Stop? { return; }
      // IncreaseRetry: after a queue wait one increment is skipped
      q := if q.keepRetry then q.(keepRetry := false) else q.(retry := q.retry + 1);
    }
    assert false;
  }

  /** The end of the main loop is what the verdict says. */
  predicate LoopEnds(v: Verdict, flow: Flow, route: Route, p: Progress, price: Price, errors: Errors, main: seq<Sent>,
                     fallbacks: seq<Channel>)
  {
    !v.Waits? && TurnEnds(v, flow, route, p, price, errors, main, 0, Queue(0, false, 0), fallbacks)
  }

  /** How the loop ends when round `i` starts in this state. */
  function Rest(route: Route, p: Progress, fallbacks: seq<Channel>, rounds: nat -> Round, i: nat, waits: nat, price: Price): Verdict {
    if p.gone then GoneEnd(Context(waits > 0, p.overloadChecked, route.source, p.wasQueued, price))
    else RoundsEnd(fallbacks, rounds, i, waits, p.overloadChecked, route.source, p.wasQueued, price)
  }

  /** Round `i`: it ends the loop as computed, or leaves the same end to the next round. */
  method NextRound(l: Ledger, route: Route, p: Progress, q: Queue, price: Price, fallbacks: seq<Channel>, rounds: nat -> Round, i: nat)
    returns (l': Ledger, route': Route, p': Progress, q': Queue, price': Price, errors: Errors, flow: Flow)
    requires Exact(l) && LogOf(l.trace) == NOTHING_SENT && l.rpm == [] && l.concurrency == []
    requires !route.Transfer() && Ready(route, p.(gone := false)) && q == Queue(0, false, q.waits)
    requires Sound(Rest(route, p, fallbacks, rounds, i, q.waits, price), false)
    ensures Exact(l') && LogOf(l'.trace) == Log(LogOf(l'.trace).main, [], [])
    ensures flow == Done || flow == Again || flow.Stop?
    ensures var rest := Rest(route, p, fallbacks, rounds, i, q.waits, price);
      if flow == Again then
        && Ready(route', p') && !route'.Transfer() && q' == Queue(0, true, q'.waits) && q'.waits < q.waits
        && errors == NO_ERRORS && price' == price && LogOf(l'.trace) == NOTHING_SENT && l'.rpm == [] && l'.concurrency == []
        && rest == Rest(route', p', fallbacks, rounds, i + 1, q'.waits, price)
      else LoopEnds(rest, flow, route', p', price', errors, LogOf(l'.trace).main, fallbacks)
  {
    ghost var x := Context(q.waits > 0, p.overloadChecked, route.source, p.wasQueued, price);
    ghost var v;
    l', route', p', q', price', errors, flow, v := Turn(l, route, p, q, price, fallbacks, rounds(i), x);
    RestNext(route, p, fallbacks, rounds, i, q.waits, price, x, v);
  }

  /** The rest of the loop is this round, or the rest after its wait. */
  lemma RestNext(route: Route, p: Progress, fallbacks: seq<Channel>, rounds: nat -> Round, i: nat, waits: nat, price: Price,
                 x: Context, v: Verdict)
    requires x == Context(waits > 0, p.overloadChecked, route.source, p.wasQueued, price)
    requires v == if p.gone then GoneEnd(x) else RoundEnd(fallbacks, rounds(i), x)
    ensures var rest := Rest(route, p, fallbacks, rounds, i, waits, price);
      if v.Waits? then waits > 0 && rest == RoundsEnd(fallbacks, rounds, i + 1, waits - 1, v.checked, v.source, true, price)
      else rest == v
  {
    RoundEndSound(fallbacks, rounds(i), x);
  }

  /** One round of the main loop: select, admit, send. */
  method Turn(l: Ledger, route: Route, p: Progress, q: Queue, price: Price, fallbacks: seq<Channel>, r: Round, ghost x: Context)
    returns (l': Ledger, route': Route, p': Progress, q': Queue, price': Price, errors: Errors, flow: Flow, ghost v: Verdict)
    requires Exact(l) && LogOf(l.trace) == NOTHING_SENT && l.rpm == [] && l.concurrency == []
    requires !route.Transfer() && Ready(route, p.(gone := false)) && q == Queue(0, false, q.waits)
    requires Fits(x, route, p, q) && x.price == price
    ensures Exact(l') && LogOf(l'.trace) == Log(LogOf(l'.trace).main, [], [])
    ensures flow == Again ==> l'.rpm == [] && l'.concurrency == [] && price' == price
    ensures v == if p.gone then GoneEnd(x) else RoundEnd(fallbacks, r, x)
    ensures TurnEnds(v, flow, route', p', price', errors, LogOf(l'.trace).main, q.waits, q', fallbacks)
  {
    v := if p.gone then GoneEnd(x) else RoundEnd(fallbacks, r, x);
    l', price', errors := l, price, NO_ERRORS;
    route', p', q', flow := Select(route, p, q, fallbacks, r, x);
    if flow.Proceed? {
      l', route', p', q', flow := Admit(l, route', p', q', flow.channel, fallbacks, r, x);
    }
    if flow.Stop? { errors := NO_ERRORS.(last := flow.error); }
    if flow.Proceed? {
      l', route', p', price', errors, flow := Deliver(l', route', p', q', price, flow.channel, fallbacks, r, x.(checked := p'.overloadChecked));
    }
  }

  /** Sending from a ready state, seen as the end of the round. */
  method Deliver(l: Ledger, route: Route, p: Progress, q: Queue, price: Price, c: Channel, fallbacks: seq<Channel>, r: Round, ghost x: Context)
    returns (l': Ledger, route': Route, p': Progress, price': Price, errors: Errors, flow: Flow)
    requires Exact(l) && LogOf(l.trace) == NOTHING_SENT && Ready(route, p) && Fits(x, route, p, q) && x.price == price && q.retry == 0
    ensures Exact(l') && LogOf(l'.trace) == Log(LogOf(l'.trace).main, [], []) && flow != Again
    ensures TurnEnds(SendEnd(fallbacks, c, route.triggered, r.upstream, x), flow, route', p', price', errors,
                     LogOf(l'.trace).main, q.waits, q, fallbacks)
  {
    var u := r.upstream;
    l', route', p', price', errors, flow := SendPrimary(l, route, p, q, price, c, u, r.retryPolicy);
    if u.pricing.None? || u.charge.Refused? || !u.bodyOk {
      UnsentEnds(route, p, q, c, fallbacks, u, x, route', p', price', errors, flow);
    } else {
      SentEnds(route, p, q, c, fallbacks, u, x, route', p', errors, flow);
    }
  }

  // ----- the fallback chain

  /**
   One fallback attempt. A per-call price survives the pricing refresh, so the fallback channel
   is billed at the price that was there before.
   */
  method ExecuteFallback(trace: seq<Event>, price: Price, b: Billing, c: Channel, u: Upstream)
    returns (trace': seq<Event>, price': Price, b': Billing, error: Option<Error>)
    requires Legal(trace)
    ensures Legal(trace') && Outstanding(trace') == Outstanding(trace)
    ensures LogOf(trace') == if Payable(b, u) && u.bodyOk then Add(LogOf(trace), Dispatch(Chain, Sent(c.id, price'))) else LogOf(trace)
    ensures price' == if u.pricing.None? || price.usePrice then price else u.pricing.value
    ensures b' == if u.pricing.Some? && b.NoSession? && u.charge.Opened? then Session(u.charge.held) else b
    ensures error.None? <==> Payable(b, u) && u.bodyOk && u.reply.Succeeds?
    ensures error.Some? ==> (error.value.cancelled <==> Payable(b, u) && u.bodyOk && u.reply.cancelled)
  {
    trace', price', b', error := trace, price, b, Some(LOCAL_FAILURE);
    if u.pricing.None? { return; }
    price' := if price.usePrice then Price(price.modelPrice, price.usePrice) else u.pricing.value;
    if Charged(b, u.charge).None? { return; }
    b' := Charged(b, u.charge).value;
    if !u.bodyOk { return; }
    trace' := Emit(trace, Dispatch(Chain, Sent(c.id, price')));
    match u.reply
    case Succeeds => error := None;
    case Fails(code, status, cancelled, _) => error := Some(Error(Fallback, code, status, cancelled));
  }

  datatype Step = Succeeded | Next | ClientLeft

  /** What an attempt does to the request. */
  predicate StepIs(step: Step, c: Channel, a: Attempt, b: Billing) {
    && (step.Succeeded? <==> Answers(c, a, b))
    && (step.ClientLeft? <==> LeavesAfter(c, a, b))
  }

  function LogNext(log: Log, c: Channel, a: Attempt, w: Purse): Log {
    if Goes(c, a, w.billing) then Add(log, Dispatch(Chain, Sent(c.id, Pays(w, c, a).price))) else log
  }

  /** Slots for one fallback channel that is set up, then the attempt itself. */
  method TryFallback(l: Ledger, price: Price, b: Billing, c: Channel, a: Attempt)
    returns (l': Ledger, price': Price, b': Billing, step: Step)
    requires Exact(l) && a.setupOk
    ensures Exact(l') && LogOf(l'.trace) == LogNext(LogOf(l.trace), c, a, Purse(b, price))
    ensures Purse(b', price') == Pays(Purse(b, price), c, a) && StepIs(step, c, a, b)
    ensures l'.counted == (l.counted || (Reached(c, a) && c.countsForOverload))
    ensures l'.rpm == if Reached(c, a) && c.limitsRpm then l.rpm + [Rpm(c.id)] else l.rpm
    ensures l'.concurrency == if Reached(c, a) && c.limitsConcurrency then l.concurrency + [Concurrency(c.id)] else l.concurrency
  {
    l', price', b', step := l, price, b, Next;
    if c.limitsRpm || c.limitsConcurrency {
      var free;
      l', free := AcquireChannelSlots(l, c, a.slots.rpmOk, a.slots.concurrencyOk);
      if !free { return; }
    }
    l', price', b', step := Attempted(l', price, b, c, a);
  }

  /** The global count and the attempt of a channel that has its slots. */
  method Attempted(l: Ledger, price: Price, b: Billing, c: Channel, a: Attempt)
    returns (l': Ledger, price': Price, b': Billing, step: Step)
    requires Exact(l) && Reached(c, a)
    ensures l'.counted == (l.counted || c.countsForOverload) && l'.rpm == l.rpm && l'.concurrency == l.concurrency
    ensures Exact(l') && LogOf(l'.trace) == LogNext(LogOf(l.trace), c, a, Purse(b, price))
    ensures Purse(b', price') == Pays(Purse(b, price), c, a) && StepIs(step, c, a, b)
  {
    l' := CountGlobally(l, c);
    var trace, error;
    trace, price', b', error := ExecuteFallback(l'.trace, price, b, c, a.upstream);
    l' := l'.(trace := trace);
    step := if error.None? then Succeeded
            else if error.value.cancelled || a.upstream.cancelAfter then ClientLeft else Next;
  }

  /** One turn of the chain: the next unused fallback is tried, or skipped, and marked used. */
  method ChainStep(l: Ledger, route: Route, price: Price, b: Billing, fallbacks: seq<Channel>, a: Attempt)
    returns (l': Ledger, route': Route, price': Price, b': Billing, step: Step)
    requires Exact(l) && Unused(fallbacks, route.used) != [] && (route.source || route.Transfer())
    ensures var c := Unused(fallbacks, route.used)[0];
      && Exact(l') && LogOf(l'.trace) == LogNext(LogOf(l.trace), c, a, Purse(b, price))
      && Purse(b', price') == Pays(Purse(b, price), c, a) && StepIs(step, c, a, b)
      && route'.used == route.used + [c.id] && (route'.source || route'.Transfer())
  {
    l', price', b', step := l, price, b, Next;
    var selection;
    route', selection := GetChannel(route.(triggered := false, forceNext := true), fallbacks, Choice(NoChannel, a.setupOk));
    if selection.Chosen? {
      route' := route'.(used := route'.used + [selection.channel.id]);
      l', price', b', step := TryFallback(l, price, b, selection.channel, a);
    }
  }

  /** How far the chain came and what it did on the way. */
  ghost predicate ChainAt(todo: seq<Channel>, attempts: nat -> Attempt, w: Purse, i: nat, log: Log, start: Log, now: Purse) {
    i <= |todo| && now == PurseAt(todo, attempts, w, i) && log == start.(chain := ChainLog(todo, attempts, w, i))
  }

  lemma ChainAtNext(todo: seq<Channel>, attempts: nat -> Attempt, w: Purse, i: nat, log: Log, start: Log, now: Purse)
    requires ChainAt(todo, attempts, w, i, log, start, now) && i < |todo|
    ensures ChainAt(todo, attempts, w, i + 1, LogNext(log, todo[i], attempts(i), now), start, Pays(now, todo[i], attempts(i)))
  {
  }

  /**
   The fallback chain. It looks at the unused fallback channels in list order, each once, sends
   exactly the requests the attempts allow, and stops exactly when one answers or the client left.
   */
  method FallbackChain(l: Ledger, route: Route, price: Price, b: Billing, fallbacks: seq<Channel>, attempts: nat -> Attempt)
    returns (l': Ledger, b': Billing, ok: bool, left: bool, considered: nat)
    requires Exact(l) && Distinct(fallbacks) && (route.source || route.Transfer())
    requires LogOf(l.trace).chain == []
    ensures Exact(l')
    ensures var todo, w := Unused(fallbacks, route.used), Purse(b, price);
      && Considers(todo, attempts, w, considered)
      && LogOf(l'.trace) == LogOf(l.trace).(chain := ChainLog(todo, attempts, w, considered))
      && b' == PurseAt(todo, attempts, w, considered).billing
      && (ok <==> ChainAnswers(todo, attempts, w)) && (left <==> ChainLeft(todo, attempts, w))
  {
    ghost var todo, w := Unused(fallbacks, route.used), Purse(b, price);
    ghost var end;
    l', b', ok, left, considered, end := ChainLoop(l, route, price, b, fallbacks, attempts, todo, w);
    ChainEndMeans(todo, attempts, w, 0);
  }

  /** The loop of the chain: it ends as the attempts decide one after the other. */
  method ChainLoop(l: Ledger, route: Route, price: Price, b: Billing, fallbacks: seq<Channel>, attempts: nat -> Attempt,
                   ghost todo: seq<Channel>, ghost w: Purse)
    returns (l': Ledger, b': Billing, ok: bool, left: bool, considered: nat, ghost end: ChainVerdict)
    requires Exact(l) && Distinct(fallbacks) && (route.source || route.Transfer())
    requires LogOf(l.trace).chain == [] && todo == Unused(fallbacks, route.used) && w == Purse(b, price)
    ensures Exact(l') && end == ChainEnd(todo, attempts, w, 0) && end == ChainVerdict(ok, left, considered)
    ensures exists now: Purse :: now.billing == b' && ChainAt(todo, attempts, w, considered, LogOf(l'.trace), LogOf(l.trace), now)
  {
    var route', price' := route, price;
    ghost var start := LogOf(l.trace);
    l', b', ok, left, considered := l, b, false, false, 0;
    end := ChainEnd(todo, attempts, w, 0);
    assert todo[0..] == todo;
    while Unused(fallbacks, route'.used) != []
      invariant Exact(l') && !ok && !left && (route'.source || route'.Transfer())
      invariant ChainAt(todo, attempts, w, considered, LogOf(l'.trace), start, Purse(b', price'))
      invariant Unused(fallbacks, route'.used) == todo[considered..] && end == ChainEnd(todo, attempts, w, considered)
      decreases |todo| - considered
    {
      if attempts(considered).cancelNow {
        left := true;
        return;
      }
      var step;
      l', route', price', b', step := ChainTurn(l', route', price', b', fallbacks, attempts, considered, todo, w, start);
      considered := considered + 1;
      if !step.Next? {
        ok, left := step.Succeeded?, step.ClientLeft?;
        return;
      }
    }
  }

  /** Attempt `i` of the chain. */
  method ChainTurn(l: Ledger, route: Route, price: Price, b: Billing, fallbacks: seq<Channel>, attempts: nat -> Attempt, i: nat,
                   ghost todo: seq<Channel>, ghost w: Purse, ghost start: Log)
    returns (l': Ledger, route': Route, price': Price, b': Billing, step: Step)
    requires Exact(l) && Distinct(fallbacks) && (route.source || route.Transfer())
    requires i < |todo| && Unused(fallbacks, route.used) == todo[i..]
    requires ChainAt(todo, attempts, w, i, LogOf(l.trace), start, Purse(b, price))
    ensures Exact(l') && (route'.source || route'.Transfer()) && Unused(fallbacks, route'.used) == todo[i + 1..]
    ensures ChainAt(todo, attempts, w, i + 1, LogOf(l'.trace), start, Purse(b', price'))
    ensures (step.Succeeded? <==> AnswersAt(todo, attempts, w, i)) && (step.ClientLeft? <==> LeavesAt(todo, attempts, w, i))
  {
    assert Unused(fallbacks, route.used + [todo[i].id]) == todo[i + 1..] by {
      UnusedNext(fallbacks, route.used);
      assert todo[i..][1..] == todo[i + 1..];
    }
    ChainAtNext(todo, attempts, w, i, LogOf(l.trace), start, Purse(b, price));
    l', route', price', b', step := ChainStep(l, route, price, b, fallbacks, attempts(i));
  }

  // ----- the whole request

  /** The codes whose messages a queued request must not show. */
  predicate Masked(code: Code) {
    code.DoRequestFailed? || code.BadResponse?
  }

  /** The error sent to the client, from the error the request ended with. */
  function FinalError(e: Error, errors: Errors, p: Progress, chained: bool): Error {
    var masked := p.emergency && !chained && !p.cancelled && !e.cancelled;
    var e1 := if masked then GENERIC_FAILURE else e;
    var returned := chained || masked;
    var e2 := if e1.cancelled || (p.cancelled && !returned) then e1.(status := 200) else e1;
    var e3 := if !p.cancelled && !returned && e2.code.DoRequestFailed? && errors.firstSpecific.Some?
              then errors.firstSpecific.value else e2;
    if p.wasQueued && Masked(e3.code) && !p.cancelled && !e3.cancelled && e3.status != 503 then QUEUE_FAILURE else e3
  }

  /** Without a chain, with one dispatch at most, no other error can take the last one's place. */
  lemma MainErrorShown(f: Facts, errors: Errors, p: Progress)
    requires FactsSound(f) && f.error.Some? && ErrorsFit(errors, f)
    requires p.wasQueued == f.queued && p.emergency == f.emergency && p.cancelled == f.cancelled
    ensures FinalError(f.error.value, errors, p, false) == MainError(f)
  {
  }

  lemma ExtraErrorShown(f: Facts, errors: Errors, p: Progress)
    requires p.wasQueued == f.queued && p.emergency == f.emergency && !p.cancelled
    ensures FinalError(CONTEXT_TOO_LONG, errors, p, false) == ExtraError(f)
  {
  }

  lemma ChainErrorShown(f: Facts, errors: Errors, p: Progress)
    requires FactsSound(f) && p.wasQueued == f.queued
    ensures FinalError(if f.primary then f.error.value else GENERIC_FAILURE, errors, p, true) == ChainError(f, p.cancelled)
  {
  }

  /** The deferred refund: with an error, and a session that holds something and is not settled. */
  predicate GivesBack(error: Option<Error>, billing: Billing, settled: bool) {
    error.Some? && billing == Session(true) && !settled
  }

  /** The extra attempt that replaces the chain for an oversized context. */
  method RetryCurrent(l: Ledger, price: Price, errors: Errors, p: Progress, tail: Tail, ghost f: Facts)
    returns (trace: seq<Event>, o: Result)
    requires Exact(l) && LogOf(l.trace) == Log(LogOf(l.trace).main, [], [])
    requires FactsSound(f) && ErrorsFit(errors, f) && price == f.price && p.billing == f.billing
    requires p.wasQueued == f.queued && p.emergency == f.emergency && !p.cancelled
    ensures Legal(trace) && Outstanding(trace) == multiset{} && LogOf(trace) == o.log
    ensures o.phase == Extra && EndsInExtra(o, f, LogOf(l.trace).main, tail)
    ensures o.refunded == GivesBack(o.error, o.billing, o.succeeded && tail.settles)
  {
    var l' := l;
    if tail.bodyOk {
      trace := Emit(l.trace, Dispatch(Extra, Sent(tail.current, price)));
      l' := l.(trace := trace);
    }
    ExtraErrorShown(f, errors, p);
    var succeeded := tail.bodyOk && tail.reply.Succeeds?;
    // on success the earlier error is not cleared
    var error := if succeeded then errors.last else Some(FinalError(CONTEXT_TOO_LONG, errors, p, false));
    trace := ReleaseAll(l');
    o := Result(Extra, succeeded, error, p.billing, GivesBack(error, p.billing, succeeded && tail.settles), LogOf(trace));
  }

  /** The fallback chain to its end: slots released, and the error chosen when it does not succeed. */
  method RunChain(l: Ledger, route: Route, p: Progress, price: Price, errors: Errors, fallbacks: seq<Channel>,
                  attempts: nat -> Attempt, ghost f: Facts)
    returns (trace: seq<Event>, o: Result)
    requires Exact(l) && LogOf(l.trace) == Log(LogOf(l.trace).main, [], []) && Distinct(fallbacks)
    requires (route.source || route.Transfer()) && route.used == f.used && p.billing == f.billing && p.wasQueued == f.queued
    requires FactsSound(f) && ErrorsFit(errors, f) && price == f.price
    ensures Legal(trace) && Outstanding(trace) == multiset{} && LogOf(trace) == o.log
    ensures o.phase == Chain && EndsInChain(o, f, LogOf(l.trace).main, fallbacks, attempts)
    ensures o.refunded == GivesBack(o.error, o.billing, false)
  {
    var l', billing, done, left, considered := FallbackChain(l, route, price, p.billing, fallbacks, attempts);
    trace := ReleaseAll(l');
    var error := None;
    if !done {
      var p' := p.(cancelled := left);
      ChainErrorShown(f, errors, p');
      var e := if errors.firstPrimary.Some? then errors.firstPrimary.value else GENERIC_FAILURE;
      error := Some(FinalError(e, errors, p', true));
    }
    o := Result(Chain, done, error, billing, GivesBack(error, billing, false), LogOf(trace));
  }

  /** Everything after the main loop. */
  method Conclude(l: Ledger, route: Route, p: Progress, price: Price, errors: Errors, flow: Flow, fallbacks: seq<Channel>,
                  attempts: nat -> Attempt, tail: Tail, ghost end: Verdict)
    returns (trace: seq<Event>, o: Result)
    requires Exact(l) && LogOf(l.trace) == Log(LogOf(l.trace).main, [], []) && Distinct(fallbacks)
    requires Sound(end, false) && LoopEnds(end, flow, route, p, price, errors, LogOf(l.trace).main, fallbacks)
    ensures Legal(trace) && Outstanding(trace) == multiset{} && LogOf(trace) == o.log
    ensures Concludes(o, end, fallbacks, attempts, tail)
  {
    if flow != Done && !tail.cancelNow && Open(route, p, fallbacks) {
      if tail.oversized {
        trace, o := RetryCurrent(l, price, errors, p, tail, end.facts);
      } else {
        trace, o := RunChain(l, route, p, price, errors, fallbacks, attempts, end.facts);
      }
      return;
    }
    trace := ReleaseAll(l);
    if flow == Done {
      o := Result(Main, true, None, p.billing, false, LogOf(trace));
    } else {
      var final := None;
      if errors.last.Some? {
        MainErrorShown(end.facts, errors, p);
        final := Some(FinalError(errors.last.value, errors, p, false));
      }
      o := Result(Main, false, final, p.billing, GivesBack(final, p.billing, false), LogOf(trace));
    }
  }

  /**
   The whole relay of one request. Every slot acquired is released exactly once, no release comes
   without its slot, and what is sent, answered, shown and given back is what the inputs say.
   */
  method Relay(gone: bool, waits: nat, price: Price, fallbacks: seq<Channel>,
               rounds: nat -> Round, attempts: nat -> Attempt, tail: Tail)
    returns (trace: seq<Event>, o: Result)
    requires Distinct(fallbacks)
    ensures Legal(trace) && Outstanding(trace) == multiset{} && LogOf(trace) == o.log
    ensures Concludes(o, MainEnd(fallbacks, rounds, gone, waits, price), fallbacks, attempts, tail)
    ensures SentInOrder(o.log, fallbacks)
  {
    var l, route, p, price', errors, flow := MainLoop(gone, waits, price, fallbacks, rounds);
    ghost var end := MainEnd(fallbacks, rounds, gone, waits, price);
    trace, o := Conclude(l, route, p, price', errors, flow, fallbacks, attempts, tail, end);
    SentProperly(o, end, fallbacks, attempts, tail);
  }

  // ----- two runs

  const SLOTS_FULL := Slots(false, false)
  const SLOTS_FREE := Slots(true, true)
  const PER_CALL := Price(1.0, true)
  const REJECTED := Upstream(Some(PER_CALL), Opened(true), true, Fails(OtherCode, 429, false, false), false)

  /** Over the daily limit, with one fallback whose slots are full: nothing is sent, nothing answered. */
  method SilentEnd() returns (trace: seq<Event>, o: Result)
    ensures !o.succeeded && o.error.None? && LogOf(trace) == NOTHING_SENT
  {
    var busy := Channel(7, true, false, false, false, false);
    var none := Choice(NoChannel, true);
    var round := Round(false, true, none, None, false, false, none, SLOTS_FULL, false, false, REJECTED, false);
    var rounds: nat -> Round := i => round;
    var attempt := Attempt(false, true, SLOTS_FULL, REJECTED);
    var attempts: nat -> Attempt := i => attempt;
    var tail := Tail(false, false, 7, true, Succeeds, true);
    trace, o := Relay(false, 5, PER_CALL, [busy], rounds, attempts, tail);
    ghost var x := Context(true, false, false, false, PER_CALL);
    assert RoundEnd([busy], round, x) == Stopped(x, [7], None, OthersLeft([busy], 7));
    assert Unused([busy], [7]) == [];
  }

  /**
   A rejected primary request with an oversized context whose extra attempt succeeds: the client
   is answered and also sent an error; the quota comes back only if that success was not settled.
   */
  method ReportedSuccess(settles: bool) returns (trace: seq<Event>, o: Result)
    ensures o.succeeded && o.error == Some(Error(Primary, OtherCode, 429, false)) && (o.refunded <==> !settles)
  {
    var primary := Channel(1, false, false, false, true, false);
    var spare := Channel(2, false, false, false, false, false);
    var chosen := Choice(Chosen(primary), true);
    var round := Round(false, false, chosen, None, false, false, chosen, SLOTS_FREE, false, false, REJECTED, false);
    var rounds: nat -> Round := i => round;
    var attempt := Attempt(false, true, SLOTS_FREE, REJECTED);
    var attempts: nat -> Attempt := i => attempt;
    var tail := Tail(false, true, 1, true, Succeeds, settles);
    trace, o := Relay(false, 5, PER_CALL, [spare], rounds, attempts, tail);
    ghost var x := Context(true, false, false, false, PER_CALL);
    UnusedMember([spare], [1], spare);
    assert RoundEnd([spare], round, x) == FailureEnd([spare], primary, false, REJECTED, x, Session(true));
  }
}
