/**
 Settling an asynchronous video task across repeated polls: the charge recorded on the task and
 the user's balance are written separately, and each write may fail.
 */
module VideoTask {
  import opened Basics

  datatype Status = NotStart | Submitted | Queued | InProgress | Success | Failure | Unknown

  /** The persisted task row and the user's balance. */
  datatype Account = Account(status: Status, quota: int, balance: int)

  /** What billing by tokens needs: the model has a ratio setting and the user's group is known. */
  datatype Pricing = Pricing(modelRatio: real, groupRatio: real)

  /** What the upstream says; `None` is an empty status. */
  datatype Report = Report(status: Option<Status>, tokens: int, pricing: Option<Pricing>)

  /** Which database writes of a poll succeed. */
  datatype Writes = Writes(rebillOk: bool, updateOk: bool, refundOk: bool)

  function Actual(r: Report): Option<int> {
    if r.tokens > 0 && r.pricing.Some? && r.pricing.value.modelRatio > 0.0
    then Some(Truncate(r.tokens as real * r.pricing.value.modelRatio * r.pricing.value.groupRatio))
    else None
  }

  /** Billing by tokens happens exactly for a priced model, at tokens times both ratios without the fraction. */
  lemma ActualIs(r: Report)
    ensures Actual(r).Some? <==> r.tokens > 0 && r.pricing.Some? && r.pricing.value.modelRatio > 0.0
    ensures Actual(r).Some? ==>
      WholePart(Actual(r).value, r.tokens as real * r.pricing.value.modelRatio * r.pricing.value.groupRatio)
  {
    if Actual(r).Some? {
      TruncateIsWholePart(r.tokens as real * r.pricing.value.modelRatio * r.pricing.value.groupRatio);
    }
  }

  /** An empty status counts as a failure. */
  function Effective(r: Report): Status { if r.status.None? then Failure else r.status.value }

  predicate Recognised(s: Status) { s != NotStart && s != Unknown }

  /** The amount that a successful poll moves from the balance to the video task. */
  function Rebilled(a: Account, r: Report, w: Writes): int {
    if Effective(r) == Success && Actual(r).Some? && w.rebillOk then Actual(r).value - a.quota else 0
  }

  predicate Refunds(a: Account, r: Report, w: Writes) {
    Effective(r) == Failure && a.status != Failure && a.quota > 0 && w.updateOk && w.refundOk
  }

  /** The state after one poll. */
  function Settle(a: Account, r: Report, w: Writes): Account {
    if !Recognised(Effective(r)) then a else
    Account(if w.updateOk then Effective(r) else a.status,
            if w.updateOk then a.quota + Rebilled(a, r, w) else a.quota,
            a.balance - Rebilled(a, r, w) + if Refunds(a, r, w) then a.quota else 0)
  }

  /** The persisted state, polled in place. */
  class Settlement {
    var status: Status
    var quota: int
    var balance: int

    constructor (status: Status, quota: int, balance: int)
      ensures State() == Account(status, quota, balance)
    {
      this.status, this.quota, this.balance := status, quota, balance;
    }

    function State(): Account
      reads this
    {
      Account(status, quota, balance)
    }

    /** updateVideoSingleTask after the upstream answered. */
    method Poll(r: Report, w: Writes) returns (ok: bool)
      modifies this
      ensures ok == Recognised(Effective(r))
      ensures State() == Settle(old(State()), r, w)
    {
      var reported := if r.status.None? then Failure else r.status.value;
      var shouldRefund, charged, preStatus := false, quota, status;
      var taskStatus, taskQuota := reported, quota;
      match reported {
        case Submitted => {}
        case Queued => {}
        case InProgress => {}
        case Success => { taskQuota := Rebill(r, w.rebillOk); }
        case Failure => { shouldRefund := charged != 0 && preStatus != Failure; }
        case NotStart => { return false; }
        case Unknown => { return false; }
      }
      if w.updateOk {
        status, quota := taskStatus, taskQuota;
      } else {
        shouldRefund := false;
      }
      if shouldRefund {
        var refunded := IncreaseBalance(charged, w.refundOk);
      }
      ok := true;
    }

    /** Charges or returns the difference to the actual cost; the new task quota is not yet saved. */
    method Rebill(r: Report, rebillOk: bool) returns (taskQuota: int)
      modifies this`balance
      ensures var moved := if Actual(r).Some? && rebillOk then Actual(r).value - quota else 0;
        taskQuota == quota + moved && balance == old(balance) - moved
    {
      taskQuota := quota;
      if Actual(r).Some? {
        var actual := Actual(r).value;
        var delta := actual - quota;
        if delta > 0 {
          if rebillOk {
            balance := balance - delta;
            taskQuota := actual;
          }
        } else if delta < 0 {
          var done := IncreaseBalance(-delta, rebillOk);
          if done { taskQuota := actual; }
        }
      }
    }

    /** A negative amount is refused. */
    method IncreaseBalance(amount: int, writeOk: bool) returns (done: bool)
      modifies this`balance
      ensures done == (amount >= 0 && writeOk)
      ensures balance == old(balance) + if done then amount else 0
    {
      done := amount >= 0 && writeOk;
      if done { balance := balance + amount; }
    }
  }

  // ----- the ledger

  /** What the user still pays for the video. */
  function Outstanding(a: Account): int { if a.status == Failure then 0 else a.quota }

  function Total(a: Account): int { a.balance + Outstanding(a) }

  /**
   The conditions of one poll: a failed task with a charge is not revived, a first failure is
   refunded, and a changed charge is saved.
   */
  predicate Keeps(a: Account, r: Report, w: Writes) {
    var s := Effective(r);
    Recognised(s) ==>
      && (w.updateOk && s != Failure ==> a.status != Failure || a.quota == 0)
      && (w.updateOk && s == Failure && a.status != Failure ==> a.quota == 0 || (a.quota > 0 && w.refundOk))
      && (!w.updateOk && s == Success && Actual(r).Some? && w.rebillOk ==> Actual(r).value == a.quota)
  }

  /** A poll conserves balance plus outstanding charge exactly under those conditions. */
  lemma ConservesIff(a: Account, r: Report, w: Writes)
    ensures Total(Settle(a, r, w)) == Total(a) <==> Keeps(a, r, w)
  {
  }

  datatype Step = Poll(report: Report, writes: Writes)

  function Run(a: Account, steps: seq<Step>): Account
    decreases steps
  {
    if steps == [] then a else Run(Settle(a, steps[0].report, steps[0].writes), steps[1..])
  }

  /** Every write succeeds, and no cost is negative. */
  predicate Reliable(steps: seq<Step>) {
    forall i :: 0 <= i < |steps| ==>
      && steps[i].writes == Writes(true, true, true)
      && (Actual(steps[i].report).Some? ==> Actual(steps[i].report).value >= 0)
  }

  /** After a failure is reported, only failures (or unrecognised statuses) are reported. */
  predicate FailureTerminal(steps: seq<Step>, failed: bool) {
    steps != [] ==>
      var s := Effective(steps[0].report);
      && (failed ==> s == Failure || !Recognised(s))
      && FailureTerminal(steps[1..], failed || s == Failure)
  }

  /** Over any such run of polls, balance plus outstanding charge is constant. */
  lemma {:induction false} RunConserves(a: Account, steps: seq<Step>)
    requires Reliable(steps) && FailureTerminal(steps, a.status == Failure) && a.quota >= 0
    ensures Total(Run(a, steps)) == Total(a) && Run(a, steps).quota >= 0
    decreases steps
  {
    if steps != [] {
      var r, w := steps[0].report, steps[0].writes;
      var next := Settle(a, r, w);
      assert w == Writes(true, true, true);
      ConservesIff(a, r, w);
      assert Reliable(steps[1..]);
      assert next.status == Failure <==> a.status == Failure || Effective(r) == Failure;
      RunConserves(next, steps[1..]);
    }
  }

  /** However often the charge was adjusted, a failed task leaves the user with everything back, once. */
  lemma FailureRestores(a: Account, steps: seq<Step>)
    requires Reliable(steps) && FailureTerminal(steps, false) && a.quota >= 0 && a.status != Failure
    requires Run(a, steps).status == Failure
    ensures Run(a, steps).balance == a.balance + a.quota
  {
    RunConserves(a, steps);
  }

  /** Polling the same success again moves nothing. */
  lemma SuccessSettlesOnce(a: Account, r: Report, w: Writes, again: Writes)
    requires Effective(r) == Success && w.updateOk && w.rebillOk
    ensures var once := Settle(a, r, w);
      Settle(once, r, again) == once
      && (Actual(r).Some? ==> once.quota == Actual(r).value)
      && once.balance + once.quota == a.balance + a.quota
  {
  }

  // ----- behind a query for unfinished rows

  /** The query for unfinished rows hands out neither failed nor successful ones. */
  predicate Unfinished(s: Status) { s != Failure && s != Success }

  /** Polls of the row as the query sees it: a finished row is not polled again. */
  function PollLoop(a: Account, steps: seq<Step>): Account
    decreases steps
  {
    if steps == [] then a
    else PollLoop(if Unfinished(a.status) then Settle(a, steps[0].report, steps[0].writes) else a, steps[1..])
  }

  /** Behind such a query the sum is constant whatever the upstream reports, as long as writes succeed. */
  lemma {:induction false} LoopConserves(a: Account, steps: seq<Step>)
    requires Reliable(steps) && a.quota >= 0
    ensures Total(PollLoop(a, steps)) == Total(a) && PollLoop(a, steps).quota >= 0
    decreases steps
  {
    if steps != [] {
      var r, w := steps[0].report, steps[0].writes;
      assert w == Writes(true, true, true);
      ConservesIff(a, r, w);
      assert Reliable(steps[1..]);
      LoopConserves(if Unfinished(a.status) then Settle(a, r, w) else a, steps[1..]);
    }
  }

  // ----- where the conditions matter

  function Failed(): Report { Report(Some(Failure), 0, None) }

  /**
   A charged task that fails, is reported as running, and fails again is refunded twice. A caller
   that polls only unfinished rows never gets there.
   */
  lemma RevivalRefundsTwice(a: Account, w: Writes)
    requires a.status == InProgress && a.quota > 0 && w == Writes(true, true, true)
    ensures Run(a, [Poll(Failed(), w), Poll(Report(Some(InProgress), 0, None), w), Poll(Failed(), w)]).balance
      == a.balance + 2 * a.quota
  {
    var running := Report(Some(InProgress), 0, None);
    var b := Settle(a, Failed(), w);
    var c := Settle(b, running, w);
    assert b == Account(Failure, a.quota, a.balance + a.quota);
    assert c == Account(InProgress, a.quota, b.balance);
    var s1, s2, s3 := Poll(Failed(), w), Poll(running, w), Poll(Failed(), w);
    assert [s1, s2, s3][1..] == [s2, s3] && [s2, s3][1..] == [s3] && [s3][1..] == [];
    assert Run(c, [s3]) == Settle(c, Failed(), w);
    assert Run(b, [s2, s3]) == Run(c, [s3]);
  }

  function Repeat(s: Step, n: nat): seq<Step> { if n == 0 then [] else [s] + Repeat(s, n - 1) }

  /** While the row of a video task cannot be saved, every poll of a dearer success charges the difference again. */
  lemma {:induction false} UnsavedChargeRepeats(a: Account, r: Report, w: Writes, n: nat)
    requires Effective(r) == Success && Actual(r).Some? && w.rebillOk && !w.updateOk
    ensures Run(a, Repeat(Poll(r, w), n)) == a.(balance := a.balance - n * (Actual(r).value - a.quota))
    decreases n
  {
    if n > 0 {
      var s := Poll(r, w);
      var next := Settle(a, r, w);
      assert next == a.(balance := a.balance - (Actual(r).value - a.quota));
      assert Repeat(s, n)[0] == s && Repeat(s, n)[1..] == Repeat(s, n - 1);
      UnsavedChargeRepeats(next, r, w, n - 1);
      assert n * (Actual(r).value - a.quota) == (n - 1) * (Actual(r).value - a.quota) + (Actual(r).value - a.quota);
    }
  }
}
