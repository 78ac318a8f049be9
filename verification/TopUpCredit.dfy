/**
 The other half of "credited once": a completed order gets its credit exactly when the write of
 that credit did not fail, and a credit whose write failed never comes back.
 */
module TopUpCredit {
  import opened OrderLock

  /** A notification that marked the order successful and is about to add the quota. */
  predicate AtCredit(pc: Pc, no: string) {
    pc.Critical? && pc.no == no && pc.stage.AddQuota?
  }

  predicate SomeoneAtCredit(threads: seq<Pc>, no: string) {
    exists i :: 0 <= i < |threads| && AtCredit(threads[i], no)
  }

  predicate Succeeded(orders: map<string, Order>, no: string) {
    no in orders && orders[no].status == Success
  }

  predicate SameOrder(orders: map<string, Order>, orders': map<string, Order>, no: string) {
    (no in orders <==> no in orders') && (no in orders ==> orders[no] == orders'[no])
  }

  // ----- one step, seen from one order

  lemma BeginElsewhere(s: State, t: nat, ok: bool, no: string)
    requires Typed(s) && t < |s.threads| && s.threads[t].Critical? && s.threads[t].no != no
    ensures var s' := Begin(s, t, ok);
      && SameOrder(s.orders, s'.orders, no) && (Credited(s'.credits, no) <==> Credited(s.credits, no))
  {
    var s' := Begin(s, t, ok);
    assert s'.credits == s.credits || s'.credits == s.credits + [Credit(s.threads[t].no, s.orders[s.threads[t].no].user, Quota(s.orders[s.threads[t].no], s.quotaPerUnit))];
    CreditedElsewhere(s.credits, s'.credits, s.threads[t].no, no);
  }

  lemma CreditedElsewhere(credits: seq<Credit>, credits': seq<Credit>, mine: string, no: string)
    requires mine != no
    requires credits' == credits || (credits' != [] && credits'[..|credits'| - 1] == credits && credits'[|credits'| - 1].no == mine)
    ensures Credited(credits', no) <==> Credited(credits, no)
  {
    if Credited(credits, no) {
      var i :| 0 <= i < |credits| && credits[i].no == no;
      assert credits'[i].no == no;
    }
    if Credited(credits', no) {
      var i :| 0 <= i < |credits'| && credits'[i].no == no;
      assert credits' != credits ==> credits[i] == credits'[i];
    }
  }

  /** Work under one trade number leaves every other order and its credit alone. */
  lemma WorkElsewhere(s: State, t: nat, ok: bool, no: string)
    requires Typed(s) && t < |s.threads| && Working(s.threads[t]) && s.threads[t].no != no
    ensures var s' := Work(s, t, ok);
      && SameOrder(s.orders, s'.orders, no) && (Credited(s'.credits, no) <==> Credited(s.credits, no))
  {
    var pc, s' := s.threads[t], Work(s, t, ok);
    match pc.stage
    case ReadOrder => BeginElsewhere(s, t, ok, no);
    case MarkSuccess(o) => assert s'.credits == s.credits;
    case AddQuota(o) =>
      assert s'.orders == s.orders;
      CreditedElsewhere(s.credits, s'.credits, pc.no, no);
  }

  /** Unless its credit write fails, an order that becomes successful is credited, or about to be. */
  lemma WorkCompletes(s: State, t: nat, ok: bool)
    requires Typed(s) && t < |s.threads| && Working(s.threads[t])
    requires StageSound(s.orders, s.credits, s.threads[t])
    requires ok || !AtCredit(s.threads[t], s.threads[t].no)
    ensures var s' := Work(s, t, ok); var no := s.threads[t].no;
      Succeeded(s'.orders, no) ==>
        || (Succeeded(s.orders, no) && !AtCredit(s.threads[t], no) && s'.orders == s.orders && s'.credits == s.credits)
        || Credited(s'.credits, no) || AtCredit(s'.threads[t], no) || Quota(s'.orders[no], s'.quotaPerUnit) < 0
  {
    var pc, s' := s.threads[t], Work(s, t, ok);
    if s'.credits != s.credits {
      assert s'.credits[|s.credits|].no == pc.no;
    }
  }

  // ----- every completed order is credited

  /** The database call of this step fails, and it was to add the quota of this order. */
  predicate FailsNow(s: State, e: Event, no: string) {
    e.Run? && !e.ok && e.thread < |s.threads| && AtCredit(s.threads[e.thread], no)
  }

  /** Somewhere in the run the quota write of this order fails. */
  predicate CreditWriteFailed(s: State, events: seq<Event>, no: string)
    requires Typed(s)
    decreases |events|
  {
    events != [] &&
      var init := events[..|events| - 1];
      CreditWriteFailed(s, init, no) || FailsNow(RunAll(s, init), events[|events| - 1], no)
  }

  /** A completed order is credited, about to be credited, or has a quota that is refused. */
  ghost predicate Complete(s: State, before: map<string, Order>, no: string) {
    Succeeded(s.orders, no) ==>
      || Succeeded(before, no) || Credited(s.credits, no) || SomeoneAtCredit(s.threads, no)
      || Quota(s.orders[no], s.quotaPerUnit) < 0
  }

  lemma OtherAtCredit(threads: seq<Pc>, t: nat, pc: Pc, no: string)
    requires t < |threads| && SomeoneAtCredit(threads, no) && !AtCredit(threads[t], no)
    ensures SomeoneAtCredit(threads[t := pc], no)
  {
    var i :| 0 <= i < |threads| && AtCredit(threads[i], no);
    assert AtCredit(threads[t := pc][i], no);
  }

  lemma WorkKeepsComplete(s: State, t: nat, ok: bool, before: map<string, Order>, no: string)
    requires Typed(s) && t < |s.threads| && Working(s.threads[t])
    requires StageSound(s.orders, s.credits, s.threads[t]) && Complete(s, before, no)
    requires ok || !AtCredit(s.threads[t], no)
    ensures Complete(Work(s, t, ok), before, no)
  {
    var pc, s' := s.threads[t], Work(s, t, ok);
    WorkFrame(s, t, ok);
    if pc.no != no {
      WorkElsewhere(s, t, ok, no);
    } else {
      WorkCompletes(s, t, ok);
      if AtCredit(s'.threads[t], no) { assert SomeoneAtCredit(s'.threads, no); }
    }
    if SomeoneAtCredit(s.threads, no) && !AtCredit(pc, no) { OtherAtCredit(s.threads, t, s'.threads[t], no); }
  }

  lemma StepKeepsComplete(s: State, e: Event, opening: map<nat, int>, before: map<string, Order>, no: string)
    requires LockInv(s) && Typed(s) && MoneyInv(s, opening) && Complete(s, before, no)
    requires !FailsNow(s, e, no)
    ensures Complete(Step(s, e), before, no)
  {
    if e.Run? && e.thread < |s.threads| {
      var t := e.thread;
      if Working(s.threads[t]) {
        assert StageSound(s.orders, s.credits, s.threads[t]);
        WorkKeepsComplete(s, t, e.ok, before, no);
      } else {
        LockStepFrame(s, t, e.no, e.job);
        if SomeoneAtCredit(s.threads, no) {
          OtherAtCredit(s.threads, t, LockStep(s, t, e.no, e.job).threads[t], no);
        }
      }
    }
  }

  /** Unless its credit write failed, a completed order is credited or about to be, in every interleaving. */
  lemma {:induction false} RunComplete(s: State, events: seq<Event>, no: string)
    requires Initial(s) && !CreditWriteFailed(s, events, no)
    ensures Complete(RunAll(s, events), s.orders, no)
    decreases |events|
  {
    if events != [] {
      var init := events[..|events| - 1];
      RunComplete(s, init, no);
      RunKeeps(s, init);
      StepKeepsComplete(RunAll(s, init), events[|events| - 1], s.balances, s.orders, no);
    }
  }

  ghost predicate CreditedOnce(credits: seq<Credit>, no: string) {
    exists i :: 0 <= i < |credits| && credits[i].no == no
      && forall j :: 0 <= j < |credits| && j != i ==> credits[j].no != no
  }

  lemma OnlyOne(r: State, before: map<string, Order>, no: string)
    requires Complete(r, before, no) && CreditsSound(r) && forall pc <- r.threads :: pc.Idle?
    requires Succeeded(r.orders, no) && !Succeeded(before, no) && Quota(r.orders[no], r.quotaPerUnit) >= 0
    ensures CreditedOnce(r.credits, no)
  {
    forall i | 0 <= i < |r.threads| ensures !AtCredit(r.threads[i], no) { assert r.threads[i] in r.threads; }
    assert Credited(r.credits, no);
    var i :| 0 <= i < |r.credits| && r.credits[i].no == no;
    forall j | 0 <= j < |r.credits| && j != i ensures r.credits[j].no != no {
      assert r.credits[if i < j then i else j].no != r.credits[if i < j then j else i].no;
    }
  }

  // ----- a failed credit is lost

  /** The order is successful, has no credit, and nobody is about to credit it. */
  ghost predicate Lost(s: State, no: string) {
    && Succeeded(s.orders, no)
    && !Credited(s.credits, no) && !SomeoneAtCredit(s.threads, no)
  }

  /** A notification whose quota write fails leaves its order successful and the credit lost. */
  lemma FailedCreditIsLost(r: State, e: Event, opening: map<nat, int>, no: string)
    requires LockInv(r) && Typed(r) && MoneyInv(r, opening) && FailsNow(r, e, no)
    ensures Lost(Step(r, e), no)
  {
    var t := e.thread;
    var r' := Work(r, t, false);
    assert StageSound(r.orders, r.credits, r.threads[t]);
    forall i | 0 <= i < |r'.threads| ensures !AtCredit(r'.threads[i], no) {
      if i != t && r.threads[i].Critical? { MutualExclusion(r, i, t); }
    }
  }

  lemma WorkKeepsLost(s: State, t: nat, ok: bool, no: string)
    requires Typed(s) && t < |s.threads| && Working(s.threads[t])
    requires StageSound(s.orders, s.credits, s.threads[t]) && Lost(s, no)
    ensures Lost(Work(s, t, ok), no)
  {
    var pc, s' := s.threads[t], Work(s, t, ok);
    WorkFrame(s, t, ok);
    assert !AtCredit(s.threads[t], no);
    if pc.no != no {
      WorkElsewhere(s, t, ok, no);
    } else {
      assert pc.stage.ReadOrder?;
      assert s' == WithStage(s, t, Finished);
    }
    forall i | 0 <= i < |s'.threads| ensures !AtCredit(s'.threads[i], no) {
      assert i != t ==> !AtCredit(s.threads[i], no);
    }
  }

  lemma StepKeepsLost(s: State, e: Event, opening: map<nat, int>, no: string)
    requires LockInv(s) && Typed(s) && MoneyInv(s, opening) && Lost(s, no)
    ensures Lost(Step(s, e), no)
  {
    if e.Run? && e.thread < |s.threads| {
      var t := e.thread;
      if Working(s.threads[t]) {
        assert StageSound(s.orders, s.credits, s.threads[t]);
        WorkKeepsLost(s, t, e.ok, no);
      } else {
        LockStepFrame(s, t, e.no, e.job);
        var s' := LockStep(s, t, e.no, e.job);
        forall i | 0 <= i < |s'.threads| ensures !AtCredit(s'.threads[i], no) {
          assert i != t ==> !AtCredit(s.threads[i], no);
        }
      }
    }
  }

  /** Whatever happens later, repeated notifications included, a lost credit is never made. */
  lemma {:induction false} LostForGood(s: State, events: seq<Event>, later: seq<Event>, no: string)
    requires Initial(s) && Lost(RunAll(s, events), no)
    ensures Lost(RunAll(s, events + later), no)
    decreases |later|
  {
    if later == [] {
      assert events + later == events;
    } else {
      var init := later[..|later| - 1];
      LostForGood(s, events, init, no);
      assert (events + later)[..|events + later| - 1] == events + init;
      RunKeeps(s, events + init);
      StepKeepsLost(RunAll(s, events + init), later[|later| - 1], s.balances, no);
    }
  }

  lemma {:induction false} FailedRunIsLost(s: State, events: seq<Event>, no: string)
    requires Initial(s) && CreditWriteFailed(s, events, no)
    ensures Lost(RunAll(s, events), no)
    decreases |events|
  {
    var init, e := events[..|events| - 1], events[|events| - 1];
    RunKeeps(s, init);
    if CreditWriteFailed(s, init, no) {
      FailedRunIsLost(s, init, no);
      StepKeepsLost(RunAll(s, init), e, s.balances, no);
    } else {
      FailedCreditIsLost(RunAll(s, init), e, s.balances, no);
    }
  }

  /**
   When all threads are done, an order that was completed during the run and whose quota is not
   negative was credited exactly once if and only if no write of its credit failed, whatever
   else failed.
   */
  lemma CreditedExactlyOnce(s: State, events: seq<Event>, no: string)
    requires Initial(s) && forall pc <- RunAll(s, events).threads :: pc.Idle?
    requires Succeeded(RunAll(s, events).orders, no) && !Succeeded(s.orders, no)
    requires Quota(RunAll(s, events).orders[no], RunAll(s, events).quotaPerUnit) >= 0
    ensures CreditedOnce(RunAll(s, events).credits, no) <==> !CreditWriteFailed(s, events, no)
  {
    if CreditWriteFailed(s, events, no) {
      FailedRunIsLost(s, events, no);
    } else {
      RunComplete(s, events, no);
      RunKeeps(s, events);
      OnlyOne(RunAll(s, events), s.orders, no);
    }
  }

  // ----- a run that loses a credit

  /** Extends a run by one step of the only thread. */
  lemma Extend(s: State, events: seq<Event>, no: string, ok: bool) returns (longer: seq<Event>, r: State)
    requires Initial(s)
    ensures longer == events + [Run(0, no, Notify, ok)]
    ensures r == RunAll(s, longer) == Step(RunAll(s, events), Run(0, no, Notify, ok))
    ensures CreditWriteFailed(s, longer, no) <==>
      CreditWriteFailed(s, events, no) || FailsNow(RunAll(s, events), Run(0, no, Notify, ok), no)
  {
    longer := events + [Run(0, no, Notify, ok)];
    assert longer[..|longer| - 1] == events;
    r := RunAll(s, longer);
  }

  /** The state while the only thread is inside the section of `no`. */
  function Inside(s: State, no: string, o: Order, stage: Stage): State {
    s.(locks := map[no := 0], mutexes := [RcMutex(true, 1)], threads := [Critical(no, 0, Notify, stage)], orders := map[no := o])
  }

  ghost predicate OneOrder(s: State, no: string, o: Order) {
    Initial(s) && s.threads == [Idle] && s.orders == map[no := o] && o.status == Pending && o.provider == EPAY
  }

  lemma LockTaken(s: State, no: string, o: Order) returns (events: seq<Event>)
    requires OneOrder(s, no, o)
    ensures RunAll(s, events) == Inside(s, no, o, ReadOrder)
  {
    var r;
    events, r := Extend(s, [], no, true);
    assert r == s.(locks := map[no := 0], mutexes := [RcMutex(false, 1)], threads := [Waiting(no, 0, Notify)]);
    events, r := Extend(s, events, no, true);
  }

  lemma OrderMarked(s: State, no: string, o: Order) returns (events: seq<Event>)
    requires OneOrder(s, no, o)
    ensures RunAll(s, events) == Inside(s, no, o.(status := Success), AddQuota(o))
  {
    var r;
    events := LockTaken(s, no, o);
    events, r := Extend(s, events, no, true);
    assert r == Inside(s, no, o, MarkSuccess(o));
    events, r := Extend(s, events, no, true);
  }

  /** One notification of a pending order whose last database call fails: completed, never credited. */
  lemma OneFailedWrite(s: State, no: string, o: Order) returns (events: seq<Event>)
    requires OneOrder(s, no, o)
    ensures var r := RunAll(s, events);
      && r.threads == [Idle] && r.orders == map[no := o.(status := Success)] && r.credits == []
      && CreditWriteFailed(s, events, no)
  {
    var r;
    events := OrderMarked(s, no, o);
    events, r := Extend(s, events, no, false);
    assert r == Inside(s, no, o.(status := Success), Finished);
    events := Leave(s, events, no, o.(status := Success));
  }

  /** UnlockOrder: load, unlock, reference-count section. */
  lemma Leave(s: State, events: seq<Event>, no: string, o: Order) returns (longer: seq<Event>)
    requires Initial(s) && RunAll(s, events) == Inside(s, no, o, Finished)
    ensures RunAll(s, longer).threads == [Idle] && RunAll(s, longer).orders == map[no := o]
    ensures RunAll(s, longer).credits == s.credits
    ensures CreditWriteFailed(s, events, no) ==> CreditWriteFailed(s, longer, no)
  {
    var r;
    var inside := Inside(s, no, o, Finished);
    longer, r := Extend(s, events, no, true);
    assert r == inside.(threads := [Unlocking(no, 0, 0)]);
    longer, r := Extend(s, longer, no, true);
    assert r == inside.(threads := [Releasing(no, 0, 0)], mutexes := [RcMutex(false, 1)]);
    longer, r := Extend(s, longer, no, true);
  }
}
