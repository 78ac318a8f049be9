/**
 What the relay of one client request has to do, said on its inputs: how the main loop ends, what
 the fallback chain sends and when it answers, which error is shown and what is given back.

 Channel selection, trackers, the queue, pricing and the upstream are outside: their answers are
 inputs (`Round` for an iteration of the main loop, `Attempt` for one of the fallback chain).
 */
module RelaySpec {
  import opened Basics

  datatype Channel = Channel(id: int, limitsRpm: bool, limitsConcurrency: bool,
                             countsForOverload: bool, supportsFallback: bool, emergency: bool)

  // ----- errors

  /** `BadResponse` stands for every way an upstream's answer can be unusable. */
  datatype Code =
    | DoRequestFailed | BadResponse | RpmQueueTimeout | RpmHardInferFailed | InvalidRequest | LocalError | OtherCode

  /** Where an error comes from: a primary attempt, a fallback attempt, or the gateway itself. */
  datatype Origin = Primary | Fallback | Gateway

  datatype Error = Error(origin: Origin, code: Code, status: int, cancelled: bool)

  const GENERIC_FAILURE := Error(Gateway, DoRequestFailed, 500, false)
  const QUEUE_TIMEOUT := Error(Gateway, RpmQueueTimeout, 429, false)
  const QUEUE_FAILURE := Error(Gateway, RpmHardInferFailed, 503, false)
  const CANCELLED := Error(Gateway, DoRequestFailed, 500, true)
  const CONTEXT_TOO_LONG := Error(Gateway, InvalidRequest, 400, false)
  const LOCAL_FAILURE := Error(Gateway, LocalError, 400, false)   // selection, pricing, quota or body

  // ----- inputs

  datatype Price = Price(modelPrice: real, usePrice: bool)

  datatype Phase = Main | Extra | Chain

  datatype Sent = Sent(channel: int, price: Price)

  /** The upstream requests of each phase, in order. */
  datatype Log = Log(main: seq<Sent>, extra: seq<Sent>, chain: seq<Sent>)

  /** The billing session of a request; `held`: it has pre-consumed something it can give back. */
  datatype Billing = NoSession | Session(held: bool)

  /** What pre-consumption answers. A free model needs no session. */
  datatype Charge = Refused | FreeModel | Opened(held: bool)

  datatype Selection = Chosen(channel: Channel) | AllRpmFull | NoChannel

  datatype Reply = Succeeds | Fails(code: Code, status: int, cancelled: bool, streamed: bool)

  datatype Choice = Choice(selection: Selection, setupOk: bool)

  datatype Slots = Slots(rpmOk: bool, concurrencyOk: bool)

  /** Pricing, pre-consumption, request body and upstream reply of one attempt. */
  datatype Upstream = Upstream(pricing: Option<Price>, charge: Charge, bodyOk: bool,
                               reply: Reply, cancelAfter: bool)

  datatype Round = Round(cancelNow: bool, dailyExceeded: bool, choice: Choice,
                         affinity: Option<bool>,       // pinned channel, and whether it may fall back
                         tooLong: bool, overloaded: bool, diverted: Choice,
                         slots: Slots, dequeued: bool, cancelInQueue: bool,
                         upstream: Upstream, retryPolicy: bool)

  datatype Attempt = Attempt(cancelNow: bool, setupOk: bool, slots: Slots, upstream: Upstream)

  /**
   Inputs after the main loop: client gone, oversized context, the extra attempt for it, and
   whether its success settled the billing session.
   */
  datatype Tail = Tail(cancelNow: bool, oversized: bool, current: int, bodyOk: bool, reply: Reply, settles: bool)

  // ----- fallback channels

  /** The fallback channels that were not used yet, in list order. */
  function Unused(fallbacks: seq<Channel>, used: seq<int>): seq<Channel> {
    if fallbacks == [] then []
    else (if fallbacks[0].id in used then [] else [fallbacks[0]]) + Unused(fallbacks[1..], used)
  }

  predicate Distinct(channels: seq<Channel>) {
    forall i, j :: 0 <= i < j < |channels| ==> channels[i].id != channels[j].id
  }

  lemma {:induction false} UnusedMember(fallbacks: seq<Channel>, used: seq<int>, c: Channel)
    ensures c in Unused(fallbacks, used) <==> c in fallbacks && c.id !in used
  {
    if fallbacks != [] {
      assert fallbacks == [fallbacks[0]] + fallbacks[1..];
      UnusedMember(fallbacks[1..], used, c);
    }
  }

  lemma {:induction false} UnusedSame(fallbacks: seq<Channel>, used: seq<int>, id: int)
    requires forall c <- fallbacks :: c.id != id
    ensures Unused(fallbacks, used + [id]) == Unused(fallbacks, used)
  {
    if fallbacks != [] { UnusedSame(fallbacks[1..], used, id); }
  }

  /** Using up the first unused fallback leaves the others in order. */
  lemma {:induction false} UnusedNext(fallbacks: seq<Channel>, used: seq<int>)
    requires Distinct(fallbacks) && Unused(fallbacks, used) != []
    ensures Unused(fallbacks, used + [Unused(fallbacks, used)[0].id]) == Unused(fallbacks, used)[1..]
  {
    var first := fallbacks[0];
    if first.id in used {
      UnusedNext(fallbacks[1..], used);
    } else {
      forall c <- fallbacks[1..] ensures c.id != first.id {
        var i :| 0 <= i < |fallbacks[1..]| && fallbacks[1..][i] == c;
        assert fallbacks[i + 1] == c;
      }
      UnusedSame(fallbacks[1..], used, first.id);
    }
  }

  lemma {:induction false} UnusedDistinct(fallbacks: seq<Channel>, used: seq<int>)
    requires Distinct(fallbacks)
    ensures Distinct(Unused(fallbacks, used))
  {
    if fallbacks != [] {
      var rest := Unused(fallbacks[1..], used);
      UnusedDistinct(fallbacks[1..], used);
      forall i | 0 <= i < |rest| ensures rest[i].id != fallbacks[0].id {
        UnusedMember(fallbacks[1..], used, rest[i]);
        assert rest[i] in fallbacks[1..];
      }
    }
  }

  lemma {:induction false} UnusedNone(fallbacks: seq<Channel>)
    ensures Unused(fallbacks, []) == fallbacks
  {
    if fallbacks != [] { UnusedNone(fallbacks[1..]); }
  }

  /** The sent requests went to a selection of the channels, in their order, none twice. */
  predicate Picks(sent: seq<Sent>, channels: seq<Channel>) {
    if sent == [] then true
    else if channels == [] then false
    else
      var s, c := |sent| - 1, |channels| - 1;
      || (sent[s].channel == channels[c].id && Picks(sent[..s], channels[..c]))
      || Picks(sent, channels[..c])
  }

  lemma PicksMore(sent: seq<Sent>, channels: seq<Channel>, c: Channel, x: Sent)
    requires Picks(sent, channels)
    ensures Picks(sent, channels + [c])
    ensures x.channel == c.id ==> Picks(sent + [x], channels + [c])
  {
    assert (channels + [c])[..|channels|] == channels;
    assert (sent + [x])[..|sent|] == sent;
  }

  /** The same choice seen from the first channel. */
  lemma {:induction false} PicksFront(sent: seq<Sent>, h: Channel, channels: seq<Channel>)
    ensures Picks(sent, [h] + channels) <==>
      Picks(sent, channels) || (sent != [] && sent[0].channel == h.id && Picks(sent[1..], channels))
  {
    var all := [h] + channels;
    if sent == [] {
    } else if channels == [] {
      assert all[..|all| - 1] == [];
      assert sent[1..] == [] <==> |sent| == 1;
    } else {
      var s, c := |sent| - 1, |channels| - 1;
      assert all[..|all| - 1] == [h] + channels[..c] && all[|all| - 1] == channels[c];
      PicksFront(sent, h, channels[..c]);
      PicksFront(sent[..s], h, channels[..c]);
      if s > 0 {
        assert sent[..s][1..] == sent[1..][..s - 1];
        assert sent[1..][s - 1] == sent[s];
      }
    }
  }

  /** Leaving out used channels keeps the order of the list. */
  lemma {:induction false} PicksUnused(sent: seq<Sent>, fallbacks: seq<Channel>, used: seq<int>)
    requires Picks(sent, Unused(fallbacks, used))
    ensures Picks(sent, fallbacks)
  {
    if fallbacks != [] {
      var h, rest := fallbacks[0], fallbacks[1..];
      assert fallbacks == [h] + rest;
      PicksFront(sent, h, rest);
      PicksFront(sent, h, Unused(rest, used));
      assert Unused(fallbacks, used) == if h.id in used then Unused(rest, used) else [h] + Unused(rest, used);
      if Picks(sent, Unused(rest, used)) {
        PicksUnused(sent, rest, used);
      } else {
        PicksUnused(sent[1..], rest, used);
      }
    }
  }

  lemma {:induction false} PicksPrefix(sent: seq<Sent>, prefix: seq<Channel>, channels: seq<Channel>)
    requires Picks(sent, prefix) && prefix <= channels
    ensures Picks(sent, channels)
  {
    if |prefix| == |channels| {
      assert prefix == channels;
    } else {
      var c := |channels| - 1;
      PicksPrefix(sent, prefix, channels[..c]);
      PicksMore(sent, channels[..c], channels[c], Sent(0, Price(0.0, false)));
      assert channels == channels[..c] + [channels[c]];
    }
  }

  /** A pick from distinct channels sends nothing twice, and only to those channels. */
  lemma {:induction false} PicksDistinct(sent: seq<Sent>, channels: seq<Channel>)
    requires Picks(sent, channels) && Distinct(channels)
    ensures forall i :: 0 <= i < |sent| ==> exists j :: 0 <= j < |channels| && channels[j].id == sent[i].channel
    ensures forall i, j :: 0 <= i < j < |sent| ==> sent[i].channel != sent[j].channel
  {
    if sent != [] {
      var s, c := |sent| - 1, |channels| - 1;
      if sent[s].channel == channels[c].id && Picks(sent[..s], channels[..c]) {
        PicksDistinct(sent[..s], channels[..c]);
        assert sent == sent[..s] + [sent[s]];
        forall i | 0 <= i < s
          ensures sent[i].channel != sent[s].channel
          ensures exists j :: 0 <= j < |channels| && channels[j].id == sent[i].channel
        {
          assert sent[..s][i] == sent[i];
          var j :| 0 <= j < c && channels[..c][j].id == sent[i].channel;
          assert channels[j].id == sent[i].channel;
        }
      } else {
        PicksDistinct(sent, channels[..c]);
        forall i | 0 <= i < |sent| ensures exists j :: 0 <= j < |channels| && channels[j].id == sent[i].channel {
          var j :| 0 <= j < c && channels[..c][j].id == sent[i].channel;
          assert channels[j].id == sent[i].channel;
        }
      }
    }
  }

  // ----- how the main loop ends

  /**
   What the main loop leaves behind. No error: a fallback channel was handed back. `primary`: the
   error is the primary upstream's; `sent`: the one request that was dispatched.
   */
  datatype Facts = Facts(used: seq<int>, billing: Billing, price: Price, error: Option<Error>, primary: bool,
                         queued: bool, emergency: bool, cancelled: bool, sent: Option<Sent>)

  /**
   The outcome of a round. `Waits`: the request was queued, and what the next round has to know
   (overload already checked, the pinned channel may fall back). `Ended`: without an answer, and
   whether a fallback may follow.
   */
  datatype Verdict = Waits(checked: bool, source: bool) | Answered(sent: Sent) | Ended(open: bool, facts: Facts)

  /** What a round starts from. */
  datatype Context = Context(canWait: bool, checked: bool, source: bool, queued: bool, price: Price)

  /** The round ends before anything is paid or sent. */
  function Stopped(x: Context, used: seq<int>, error: Option<Error>, open: bool): Verdict {
    Ended(open, Facts(used, NoSession, x.price, error, false, x.queued, false, false, None))
  }

  predicate SlotsFree(c: Channel, slots: Slots) {
    (c.limitsRpm ==> slots.rpmOk) && (c.limitsConcurrency ==> slots.concurrencyOk)
  }

  /** Whether the overload check replaces this channel by a fallback. */
  predicate Diverts(fallbacks: seq<Channel>, c: Channel, r: Round, checked: bool) {
    !checked && c.countsForOverload && r.overloaded && fallbacks != []
  }

  /** A fallback besides this one is left. */
  predicate OthersLeft(fallbacks: seq<Channel>, id: int) {
    Unused(fallbacks, [id]) != []
  }

  /** The upstream failed: a cancellation, a started stream or a channel without fallback ends the request. */
  function FailureEnd(fallbacks: seq<Channel>, c: Channel, transfer: bool, u: Upstream, x: Context, billing: Billing): Verdict
    requires u.reply.Fails?
  {
    var left := u.reply.cancelled || u.cancelAfter;
    var e := if left then CANCELLED else Error(if transfer then Fallback else Primary, u.reply.code, u.reply.status, false);
    var open := !left && !u.reply.streamed && (transfer || c.supportsFallback || c.emergency) && OthersLeft(fallbacks, c.id);
    Ended(open, Facts([c.id], billing, x.price, Some(e), !left && !transfer, x.queued, c.emergency, left, Some(Sent(c.id, x.price))))
  }

  /** The channel was admitted: price, quota and body come before the request. */
  function SendEnd(fallbacks: seq<Channel>, c: Channel, transfer: bool, u: Upstream, start: Context): Verdict {
    var x := if u.pricing.Some? then start.(price := u.pricing.value) else start;
    var billing := if u.charge.Opened? then Session(u.charge.held) else NoSession;
    if u.pricing.None? || u.charge.Refused? then
      if transfer then Stopped(x, [c.id], Some(LOCAL_FAILURE), OthersLeft(fallbacks, c.id))
      else Stopped(x, [], Some(LOCAL_FAILURE), x.source && fallbacks != [])
    else if !u.bodyOk then
      Ended((x.source || transfer) && OthersLeft(fallbacks, c.id),
            Facts([c.id], billing, x.price, Some(LOCAL_FAILURE), false, x.queued, false, false, None))
    else if u.reply.Succeeds? then Answered(Sent(c.id, x.price))
    else FailureEnd(fallbacks, c, transfer, u, x, billing)
  }

  /** The request has to queue. */
  function QueueEnd(fallbacks: seq<Channel>, r: Round, x: Context, used: seq<int>): Verdict {
    if r.dequeued && x.canWait then Waits(x.checked, x.source)
    else Stopped(x.(queued := true), used, Some(if r.cancelInQueue then CANCELLED else QUEUE_TIMEOUT),
                 !r.cancelInQueue && x.source && Unused(fallbacks, used) != [])
  }

  /** The channel is settled: a fallback with full slots is handed back, any other channel queues. */
  function SlotsEnd(fallbacks: seq<Channel>, c: Channel, transfer: bool, r: Round, x: Context): Verdict {
    if SlotsFree(c, r.slots) then SendEnd(fallbacks, c, transfer, r.upstream, x)
    else if transfer then Stopped(x, [c.id], None, OthersLeft(fallbacks, c.id))
    else if r.affinity.Some? then QueueEnd(fallbacks, r, x.(source := c.supportsFallback || c.emergency), [])
    else QueueEnd(fallbacks, r, x, [c.id])
  }

  /** A channel was selected, by a transfer or normally. */
  function ChosenEnd(fallbacks: seq<Channel>, c: Channel, transfer: bool, r: Round, x: Context): Verdict {
    if !transfer && r.tooLong then Stopped(x, [], Some(CONTEXT_TOO_LONG), x.source && fallbacks != [])
    else if !Diverts(fallbacks, c, r, x.checked) then
      SlotsEnd(fallbacks, c, transfer, r, x.(checked := x.checked || c.countsForOverload))
    else if r.diverted.setupOk then SlotsEnd(fallbacks, fallbacks[0], true, r, x.(checked := true))
    else Stopped(x, [fallbacks[0].id], Some(LOCAL_FAILURE), OthersLeft(fallbacks, fallbacks[0].id))
  }

  /** No channel was selected: all are full, or there is none. */
  function UnselectedEnd(fallbacks: seq<Channel>, selection: Selection, r: Round, x: Context): Verdict
    requires !selection.Chosen?
  {
    var pinned := if r.affinity.Some? then r.affinity.value else x.source;
    if selection.AllRpmFull? then QueueEnd(fallbacks, r, x.(source := pinned), [])
    else Stopped(x, [], Some(LOCAL_FAILURE), pinned && fallbacks != [])
  }

  /** The client is gone. */
  function GoneEnd(x: Context): Verdict {
    Ended(false, Facts([], NoSession, x.price, Some(CANCELLED), false, x.queued, false, true, None))
  }

  /** One round. Over the daily limit the first fallback is taken. */
  function RoundEnd(fallbacks: seq<Channel>, r: Round, x: Context): Verdict {
    if r.cancelNow then GoneEnd(x)
    else if fallbacks != [] && r.dailyExceeded then
      if r.choice.setupOk then ChosenEnd(fallbacks, fallbacks[0], true, r, x)
      else Stopped(x, [fallbacks[0].id], Some(LOCAL_FAILURE), OthersLeft(fallbacks, fallbacks[0].id))
    else
      match r.choice.selection
      case Chosen(c) => ChosenEnd(fallbacks, c, false, r, x)
      case _ => UnselectedEnd(fallbacks, r.choice.selection, r, x)
  }

  /** The rounds from number `i` on, with `waits` queue waits left. */
  function RoundsEnd(fallbacks: seq<Channel>, rounds: nat -> Round, i: nat, waits: nat, checked: bool, source: bool,
                     queued: bool, price: Price): Verdict
    decreases waits
  {
    var v := RoundEnd(fallbacks, rounds(i), Context(waits > 0, checked, source, queued, price));
    if v.Waits? && waits > 0 then RoundsEnd(fallbacks, rounds, i + 1, waits - 1, v.checked, v.source, true, price) else v
  }

  /** How the main loop ends for a new request. */
  function MainEnd(fallbacks: seq<Channel>, rounds: nat -> Round, gone: bool, waits: nat, price: Price): Verdict {
    if gone then GoneEnd(Context(waits > 0, false, false, false, price))
    else RoundsEnd(fallbacks, rounds, 0, waits, false, false, false, price)
  }

  /** A fallback channel was handed back. */
  predicate HandedBack(v: Verdict) { v.Ended? && v.facts.error.None? }

  /** A round hands a fallback back exactly when a daily-limit or overload transfer meets full slots. */
  lemma HandedBackIff(fallbacks: seq<Channel>, r: Round, x: Context)
    ensures HandedBack(RoundEnd(fallbacks, r, x)) <==>
      && !r.cancelNow && fallbacks != [] && !SlotsFree(fallbacks[0], r.slots)
      && if r.dailyExceeded then r.choice.setupOk && (Diverts(fallbacks, fallbacks[0], r, x.checked) ==> r.diverted.setupOk)
         else
           && r.choice.selection.Chosen? && !r.tooLong
           && Diverts(fallbacks, r.choice.selection.channel, r, x.checked) && r.diverted.setupOk
  {
    if fallbacks != [] && r.dailyExceeded {
      ChosenHandedBack(fallbacks, fallbacks[0], true, r, x);
    } else if r.choice.selection.Chosen? {
      ChosenHandedBack(fallbacks, r.choice.selection.channel, false, r, x);
    }
  }

  lemma ChosenHandedBack(fallbacks: seq<Channel>, c: Channel, transfer: bool, r: Round, x: Context)
    ensures HandedBack(ChosenEnd(fallbacks, c, transfer, r, x)) <==>
      if Diverts(fallbacks, c, r, x.checked) then
        (transfer || !r.tooLong) && r.diverted.setupOk && !SlotsFree(fallbacks[0], r.slots)
      else transfer && !SlotsFree(c, r.slots)
  {
    SlotsHandedBack(fallbacks, c, transfer, r, x.(checked := x.checked || c.countsForOverload));
    if fallbacks != [] { SlotsHandedBack(fallbacks, fallbacks[0], true, r, x.(checked := true)); }
  }

  lemma SlotsHandedBack(fallbacks: seq<Channel>, c: Channel, transfer: bool, r: Round, x: Context)
    ensures HandedBack(SlotsEnd(fallbacks, c, transfer, r, x)) <==> transfer && !SlotsFree(c, r.slots)
  {
  }

  /** What holds of every ending. */
  predicate FactsSound(f: Facts) {
    && (f.error.None? ==> f.billing == NoSession)
    && (f.sent.Some? ==> f.used == [f.sent.value.channel] && f.sent.value.price == f.price && f.error.Some?)
    && (f.primary ==> f.error.Some? && f.error.value.origin == Primary && !f.error.value.cancelled)
    && (f.error.Some? && f.error.value.cancelled ==> f.error.value == CANCELLED)
    && (f.cancelled ==> f.error == Some(CANCELLED))
  }

  predicate Sound(v: Verdict, canWait: bool) {
    && (v.Waits? ==> canWait)
    && (v.Ended? ==> FactsSound(v.facts) && (v.open ==> !v.facts.cancelled))
  }

  lemma SlotsEndSound(fallbacks: seq<Channel>, c: Channel, transfer: bool, r: Round, x: Context)
    ensures Sound(SlotsEnd(fallbacks, c, transfer, r, x), x.canWait)
  {
    if SlotsFree(c, r.slots) { SendEndSound(fallbacks, c, transfer, r.upstream, x); }
  }

  lemma SendEndSound(fallbacks: seq<Channel>, c: Channel, transfer: bool, u: Upstream, x: Context)
    ensures Sound(SendEnd(fallbacks, c, transfer, u, x), x.canWait)
  {
  }

  lemma ChosenEndSound(fallbacks: seq<Channel>, c: Channel, transfer: bool, r: Round, x: Context)
    ensures Sound(ChosenEnd(fallbacks, c, transfer, r, x), x.canWait)
  {
    SlotsEndSound(fallbacks, c, transfer, r, x.(checked := x.checked || c.countsForOverload));
    if fallbacks != [] { SlotsEndSound(fallbacks, fallbacks[0], true, r, x.(checked := true)); }
  }

  lemma RoundEndSound(fallbacks: seq<Channel>, r: Round, x: Context)
    ensures Sound(RoundEnd(fallbacks, r, x), x.canWait)
  {
    if fallbacks != [] { ChosenEndSound(fallbacks, fallbacks[0], true, r, x); }
    if r.choice.selection.Chosen? { ChosenEndSound(fallbacks, r.choice.selection.channel, false, r, x); }
  }

  lemma {:induction false} RoundsEndSound(fallbacks: seq<Channel>, rounds: nat -> Round, i: nat, waits: nat, checked: bool,
                                          source: bool, queued: bool, price: Price)
    ensures Sound(RoundsEnd(fallbacks, rounds, i, waits, checked, source, queued, price), false)
    decreases waits
  {
    var x := Context(waits > 0, checked, source, queued, price);
    var v := RoundEnd(fallbacks, rounds(i), x);
    RoundEndSound(fallbacks, rounds(i), x);
    if v.Waits? && waits > 0 {
      RoundsEndSound(fallbacks, rounds, i + 1, waits - 1, v.checked, v.source, true, price);
    }
  }

  // ----- the fallback chain

  /** The billing session and the price that the next attempt meets. */
  datatype Purse = Purse(billing: Billing, price: Price)

  /** The channel is set up and has free slots. */
  predicate Reached(c: Channel, a: Attempt) { a.setupOk && SlotsFree(c, a.slots) }

  predicate Payable(billing: Billing, u: Upstream) {
    u.pricing.Some? && (billing.Session? || !u.charge.Refused?)
  }

  /** A request is sent. */
  predicate Goes(c: Channel, a: Attempt, billing: Billing) {
    Reached(c, a) && Payable(billing, a.upstream) && a.upstream.bodyOk
  }

  /** An open session is used again, and a per-call price is kept. */
  function Pays(w: Purse, c: Channel, a: Attempt): Purse {
    var u := a.upstream;
    if !Reached(c, a) || u.pricing.None? then w
    else Purse(if w.billing.NoSession? && u.charge.Opened? then Session(u.charge.held) else w.billing,
               if w.price.usePrice then w.price else u.pricing.value)
  }

  function PurseAt(todo: seq<Channel>, attempts: nat -> Attempt, w: Purse, i: nat): Purse
    requires i <= |todo|
  {
    if i == 0 then w else Pays(PurseAt(todo, attempts, w, i - 1), todo[i - 1], attempts(i - 1))
  }

  predicate Answers(c: Channel, a: Attempt, billing: Billing) {
    Goes(c, a, billing) && a.upstream.reply.Succeeds?
  }

  /** The client is found gone after a failed attempt. */
  predicate LeavesAfter(c: Channel, a: Attempt, billing: Billing) {
    && Reached(c, a) && !Answers(c, a, billing)
    && (a.upstream.cancelAfter || (Goes(c, a, billing) && a.upstream.reply.cancelled))
  }

  predicate AnswersAt(todo: seq<Channel>, attempts: nat -> Attempt, w: Purse, i: nat)
    requires i < |todo|
  {
    Answers(todo[i], attempts(i), PurseAt(todo, attempts, w, i).billing)
  }

  predicate LeavesAt(todo: seq<Channel>, attempts: nat -> Attempt, w: Purse, i: nat)
    requires i < |todo|
  {
    LeavesAfter(todo[i], attempts(i), PurseAt(todo, attempts, w, i).billing)
  }

  predicate EndsAt(todo: seq<Channel>, attempts: nat -> Attempt, w: Purse, i: nat)
    requires i < |todo|
  {
    attempts(i).cancelNow || AnswersAt(todo, attempts, w, i) || LeavesAt(todo, attempts, w, i)
  }

  /** None of the first `n` attempts ends the chain. */
  predicate Ongoing(todo: seq<Channel>, attempts: nat -> Attempt, w: Purse, n: nat)
    requires n <= |todo|
  {
    forall i :: 0 <= i < n ==> !EndsAt(todo, attempts, w, i)
  }

  /** The chain answers: some attempt does, and nothing before it ended the chain. */
  predicate ChainAnswers(todo: seq<Channel>, attempts: nat -> Attempt, w: Purse) {
    exists i :: 0 <= i < |todo| && Ongoing(todo, attempts, w, i) && !attempts(i).cancelNow && AnswersAt(todo, attempts, w, i)
  }

  /** The client is found gone, before an attempt or after a failed one. */
  predicate ChainLeft(todo: seq<Channel>, attempts: nat -> Attempt, w: Purse) {
    exists i :: 0 <= i < |todo| && Ongoing(todo, attempts, w, i) && (attempts(i).cancelNow || LeavesAt(todo, attempts, w, i))
  }

  /** The chain looks at exactly the first `n` channels. */
  predicate Considers(todo: seq<Channel>, attempts: nat -> Attempt, w: Purse, n: nat) {
    && n <= |todo|
    && (|| (Ongoing(todo, attempts, w, n) && (n == |todo| || attempts(n).cancelNow))
        || (&& n > 0 && Ongoing(todo, attempts, w, n - 1) && !attempts(n - 1).cancelNow
            && (AnswersAt(todo, attempts, w, n - 1) || LeavesAt(todo, attempts, w, n - 1))))
  }

  datatype ChainVerdict = ChainVerdict(ok: bool, left: bool, considered: nat)

  /** The attempts from number `i` on, one after the other. */
  function ChainEnd(todo: seq<Channel>, attempts: nat -> Attempt, w: Purse, i: nat): ChainVerdict
    requires i <= |todo|
    decreases |todo| - i
  {
    if i == |todo| then ChainVerdict(false, false, i)
    else if attempts(i).cancelNow then ChainVerdict(false, true, i)
    else if AnswersAt(todo, attempts, w, i) then ChainVerdict(true, false, i + 1)
    else if LeavesAt(todo, attempts, w, i) then ChainVerdict(false, true, i + 1)
    else ChainEnd(todo, attempts, w, i + 1)
  }

  /** What those attempts come to is what the descriptions above say. */
  lemma {:induction false} ChainEndMeans(todo: seq<Channel>, attempts: nat -> Attempt, w: Purse, i: nat)
    requires i <= |todo| && Ongoing(todo, attempts, w, i)
    ensures var v := ChainEnd(todo, attempts, w, i);
      && (v.ok <==> ChainAnswers(todo, attempts, w)) && (v.left <==> ChainLeft(todo, attempts, w))
      && Considers(todo, attempts, w, v.considered)
    decreases |todo| - i
  {
    if i == |todo| {
      NeverStopped(todo, attempts, w);
    } else if EndsAt(todo, attempts, w, i) {
      StoppedAt(todo, attempts, w, i);
    } else {
      ChainEndMeans(todo, attempts, w, i + 1);
    }
  }

  /** The first attempt that ends the chain decides what it comes to. */
  lemma StoppedAt(todo: seq<Channel>, attempts: nat -> Attempt, w: Purse, i: nat)
    requires i < |todo| && Ongoing(todo, attempts, w, i) && EndsAt(todo, attempts, w, i)
    ensures ChainAnswers(todo, attempts, w) <==> !attempts(i).cancelNow && AnswersAt(todo, attempts, w, i)
    ensures ChainLeft(todo, attempts, w) <==> attempts(i).cancelNow || LeavesAt(todo, attempts, w, i)
    ensures Considers(todo, attempts, w, if attempts(i).cancelNow then i else i + 1)
  {
    forall j | 0 <= j < |todo| && Ongoing(todo, attempts, w, j) && EndsAt(todo, attempts, w, j) ensures j == i {}
  }

  lemma NeverStopped(todo: seq<Channel>, attempts: nat -> Attempt, w: Purse)
    requires Ongoing(todo, attempts, w, |todo|)
    ensures !ChainAnswers(todo, attempts, w) && !ChainLeft(todo, attempts, w) && Considers(todo, attempts, w, |todo|)
  {
    forall i | 0 <= i < |todo|
      ensures !attempts(i).cancelNow && !AnswersAt(todo, attempts, w, i) && !LeavesAt(todo, attempts, w, i)
    {
      assert !EndsAt(todo, attempts, w, i);
    }
  }

  /** The requests the first `n` attempts send. */
  function ChainLog(todo: seq<Channel>, attempts: nat -> Attempt, w: Purse, n: nat): seq<Sent>
    requires n <= |todo|
  {
    if n == 0 then [] else
    var before, c, a := PurseAt(todo, attempts, w, n - 1), todo[n - 1], attempts(n - 1);
    ChainLog(todo, attempts, w, n - 1) + if Goes(c, a, before.billing) then [Sent(c.id, Pays(before, c, a).price)] else []
  }

  /** The number of channels considered is determined. */
  lemma ConsidersOnce(todo: seq<Channel>, attempts: nat -> Attempt, w: Purse, n: nat, m: nat)
    requires Considers(todo, attempts, w, n) && Considers(todo, attempts, w, m)
    ensures n == m
  {
    if n < m { EndsEarlier(todo, attempts, w, n, m); }
    if m < n { EndsEarlier(todo, attempts, w, m, n); }
  }

  lemma EndsEarlier(todo: seq<Channel>, attempts: nat -> Attempt, w: Purse, n: nat, m: nat)
    requires n < m && Considers(todo, attempts, w, n)
    ensures !Considers(todo, attempts, w, m)
  {
    if m <= |todo| {
      // an attempt before the last one already ended the chain
      if attempts(n).cancelNow && Ongoing(todo, attempts, w, n) {
        assert EndsAt(todo, attempts, w, n);
      } else {
        assert n > 0 && EndsAt(todo, attempts, w, n - 1);
      }
    }
  }

  lemma {:induction false} PursePrice(todo: seq<Channel>, attempts: nat -> Attempt, w: Purse, n: nat)
    requires n <= |todo|
    ensures w.price.usePrice ==> PurseAt(todo, attempts, w, n).price == w.price
    ensures w.billing.Session? ==> PurseAt(todo, attempts, w, n).billing == w.billing
  {
    if n > 0 { PursePrice(todo, attempts, w, n - 1); }
  }

  lemma ChainLogNext(todo: seq<Channel>, attempts: nat -> Attempt, w: Purse, n: nat) returns (x: Sent)
    requires n < |todo|
    ensures x.channel == todo[n].id && (PurseAt(todo, attempts, w, n).price.usePrice ==> x.price == PurseAt(todo, attempts, w, n).price)
    ensures var log, next := ChainLog(todo, attempts, w, n), ChainLog(todo, attempts, w, n + 1); next == log || next == log + [x]
  {
    var before := PurseAt(todo, attempts, w, n);
    x := Sent(todo[n].id, if before.price.usePrice then before.price else Pays(before, todo[n], attempts(n)).price);
  }

  /** The chain sends in list order, and at a per-call price it started with. */
  lemma {:induction false} ChainLogOrder(todo: seq<Channel>, attempts: nat -> Attempt, w: Purse, n: nat)
    requires n <= |todo|
    ensures var log := ChainLog(todo, attempts, w, n);
      Picks(log, todo[..n]) && (w.price.usePrice ==> forall i :: 0 <= i < |log| ==> log[i].price == w.price)
  {
    if n > 0 {
      ChainLogOrder(todo, attempts, w, n - 1);
      PursePrice(todo, attempts, w, n - 1);
      var x := ChainLogNext(todo, attempts, w, n - 1);
      PicksNext(ChainLog(todo, attempts, w, n - 1), ChainLog(todo, attempts, w, n), x, todo, n - 1, w.price);
    }
  }

  lemma PicksNext(log: seq<Sent>, next: seq<Sent>, x: Sent, todo: seq<Channel>, n: nat, price: Price)
    requires n < |todo| && Picks(log, todo[..n]) && x.channel == todo[n].id && (next == log || next == log + [x])
    requires price.usePrice ==> x.price == price && forall i :: 0 <= i < |log| ==> log[i].price == price
    ensures Picks(next, todo[..n + 1])
    ensures price.usePrice ==> forall i :: 0 <= i < |next| ==> next[i].price == price
  {
    PicksMore(log, todo[..n], todo[n], x);
    assert todo[..n + 1] == todo[..n] + [todo[n]];
  }

  // ----- the error that is shown

  /** After a queue wait a raw upstream failure is replaced, except a 503. */
  function Veiled(e: Error, queued: bool): Error {
    if queued && (e.code == DoRequestFailed || e.code == BadResponse) && e.status != 503 then QUEUE_FAILURE else e
  }

  /** Without a chain: a cancellation reads 200, an emergency channel's error is hidden. */
  function MainError(f: Facts): Error
    requires f.error.Some?
  {
    var e := f.error.value;
    if e.cancelled then e.(status := 200) else Veiled(if f.emergency then GENERIC_FAILURE else e, f.queued)
  }

  /** After a failed extra attempt. */
  function ExtraError(f: Facts): Error {
    Veiled(if f.emergency then GENERIC_FAILURE else CONTEXT_TOO_LONG, f.queued)
  }

  /** After a failed chain: the primary error or the generic one, never a fallback's. */
  function ChainError(f: Facts, left: bool): Error
    requires f.primary ==> f.error.Some?
  {
    var e := if f.primary then f.error.value else GENERIC_FAILURE;
    if left then e else Veiled(e, f.queued)
  }

  // ----- the whole request

  datatype Result = Result(phase: Phase, succeeded: bool, error: Option<Error>, billing: Billing, refunded: bool, log: Log)

  /** After the main loop ended like this, a fallback chain or the extra attempt follows. */
  predicate GoesOn(end: Verdict, tail: Tail) { end.Ended? && end.open && !tail.cancelNow }

  function PhaseOf(end: Verdict, tail: Tail): Phase {
    if !GoesOn(end, tail) then Main else if tail.oversized then Extra else Chain
  }

  function MainSent(end: Verdict): seq<Sent> {
    if end.Answered? then [end.sent] else if end.Ended? && end.facts.sent.Some? then [end.facts.sent.value] else []
  }

  predicate EndsInMain(o: Result, end: Verdict) {
    && o.log == Log(MainSent(end), [], [])
    && if end.Ended? then
         && !o.succeeded && o.billing == end.facts.billing
         && o.error == if end.facts.error.Some? then Some(MainError(end.facts)) else None
       else o.succeeded && o.error.None?
  }

  predicate EndsInExtra(o: Result, f: Facts, main: seq<Sent>, tail: Tail) {
    && o.log == Log(main, if tail.bodyOk then [Sent(tail.current, f.price)] else [], [])
    && o.billing == f.billing
    && (o.succeeded <==> tail.bodyOk && tail.reply.Succeeds?)
    // the error of the main loop is not cleared by a success
    && o.error == if o.succeeded then f.error else Some(ExtraError(f))
  }

  ghost predicate EndsInChain(o: Result, f: Facts, main: seq<Sent>, fallbacks: seq<Channel>, attempts: nat -> Attempt)
    requires f.primary ==> f.error.Some?
  {
    var todo, w := Unused(fallbacks, f.used), Purse(f.billing, f.price);
    && (o.succeeded <==> ChainAnswers(todo, attempts, w))
    && o.error == (if o.succeeded then None else Some(ChainError(f, ChainLeft(todo, attempts, w))))
    && exists n: nat :: Considers(todo, attempts, w, n)
         && o.log == Log(main, [], ChainLog(todo, attempts, w, n)) && o.billing == PurseAt(todo, attempts, w, n).billing
  }

  /** What a request comes to, from the end of its main loop and the inputs after it. */
  ghost predicate Concludes(o: Result, end: Verdict, fallbacks: seq<Channel>, attempts: nat -> Attempt, tail: Tail) {
    && o.phase == PhaseOf(end, tail)
    && (end.Ended? ==> FactsSound(end.facts))
    && (o.phase == Main ==> EndsInMain(o, end))
    && (o.phase == Extra ==> EndsInExtra(o, end.facts, MainSent(end), tail))
    && (o.phase == Chain ==> EndsInChain(o, end.facts, MainSent(end), fallbacks, attempts))
    // a refund needs an error and a session that holds something and that no success settled
    && (o.refunded <==> o.error.Some? && o.billing == Session(true) && !(o.phase == Extra && o.succeeded && tail.settles))
  }

  // ----- what that means

  /** The main loop failed with an error and the extra attempt for an oversized context succeeded. */
  predicate AnsweredByExtra(end: Verdict, tail: Tail) {
    && end.Ended? && end.facts.error.Some? && end.open && !tail.cancelNow
    && tail.oversized && tail.bodyOk && tail.reply.Succeeds?
  }

  /** An answered request is reported as an error too exactly when the extra attempt answered it. */
  lemma ReportedIff(o: Result, end: Verdict, fallbacks: seq<Channel>, attempts: nat -> Attempt, tail: Tail)
    requires Concludes(o, end, fallbacks, attempts, tail)
    ensures o.succeeded && o.error.Some? <==> AnsweredByExtra(end, tail)
  {
  }

  /** Neither answer nor error exactly when a fallback with full slots was handed back for nothing. */
  lemma SilentIff(o: Result, end: Verdict, fallbacks: seq<Channel>, attempts: nat -> Attempt, tail: Tail)
    requires Concludes(o, end, fallbacks, attempts, tail)
    ensures !o.succeeded && o.error.None? <==> HandedBack(end) && !GoesOn(end, tail)
  {
  }

  /**
   What an unanswered request has pre-consumed is given back, however it ended; an answered one
   gets it back exactly when the extra attempt answered it without settling.
   */
  lemma RefundIff(o: Result, end: Verdict, fallbacks: seq<Channel>, attempts: nat -> Attempt, tail: Tail)
    requires Concludes(o, end, fallbacks, attempts, tail)
    ensures !o.succeeded ==> (o.refunded <==> o.billing == Session(true))
    ensures o.succeeded && o.refunded <==>
      AnsweredByExtra(end, tail) && end.facts.billing == Session(true) && !tail.settles
  {
  }

  /** A failed chain shows the first primary error, the generic or the queue failure, no fallback's error. */
  lemma ChainHidesFallbacks(o: Result, end: Verdict, fallbacks: seq<Channel>, attempts: nat -> Attempt, tail: Tail)
    requires Concludes(o, end, fallbacks, attempts, tail) && o.phase == Chain && !o.succeeded
    ensures o.error.Some? && o.error.value.origin != Fallback
    ensures o.error == Some(QUEUE_FAILURE) || o.error == if end.facts.primary then end.facts.error else Some(GENERIC_FAILURE)
  {
  }

  /**
   At most one request before the chain; the chain in list order, no channel twice and none that
   was sent to before, all at the primary request's price when that is a price per call.
   */
  predicate SentInOrder(log: Log, fallbacks: seq<Channel>) {
    && |log.main| <= 1 && |log.extra| <= 1 && Picks(log.chain, fallbacks)
    && (forall i, j :: 0 <= i < j < |log.chain| ==> log.chain[i].channel != log.chain[j].channel)
    && (log.main != [] ==>
          forall i :: 0 <= i < |log.chain| ==>
            && log.chain[i].channel != log.main[0].channel
            && (log.main[0].price.usePrice ==> log.chain[i].price == log.main[0].price))
  }

  lemma SentProperly(o: Result, end: Verdict, fallbacks: seq<Channel>, attempts: nat -> Attempt, tail: Tail)
    requires Concludes(o, end, fallbacks, attempts, tail) && Distinct(fallbacks)
    ensures SentInOrder(o.log, fallbacks)
  {
    if o.phase == Chain {
      var todo, w := Unused(fallbacks, end.facts.used), Purse(end.facts.billing, end.facts.price);
      var n: nat :| Considers(todo, attempts, w, n) && o.log == Log(MainSent(end), [], ChainLog(todo, attempts, w, n));
      ChainLogOrder(todo, attempts, w, n);
      ChainSentOnce(o.log.chain, fallbacks, end.facts.used, todo[..n]);
    }
  }

  lemma ChainSentOnce(chain: seq<Sent>, fallbacks: seq<Channel>, used: seq<int>, considered: seq<Channel>)
    requires Distinct(fallbacks) && considered <= Unused(fallbacks, used) && Picks(chain, considered)
    ensures Picks(chain, fallbacks)
    ensures forall i, j :: 0 <= i < j < |chain| ==> chain[i].channel != chain[j].channel
    ensures forall i :: 0 <= i < |chain| ==> chain[i].channel !in used
  {
    var unused := Unused(fallbacks, used);
    PicksPrefix(chain, considered, unused);
    PicksUnused(chain, fallbacks, used);
    UnusedDistinct(fallbacks, used);
    PicksDistinct(chain, unused);
    forall j | 0 <= j < |chain| ensures chain[j].channel !in used {
      var k :| 0 <= k < |unused| && unused[k].id == chain[j].channel;
      UnusedMember(fallbacks, used, unused[k]);
    }
  }
}
