/**
 The per-order lock of the top-up endpoints and the credit it protects.

 Any number of request threads call `LockOrder`, work on one order and call `UnlockOrder`.
 Every atomic section is one step: the create section under `createLock`, taking the order's
 mutex, each database call, the load of the shared map in `UnlockOrder`, the mutex unlock, and
 the reference-count section under `createLock`. Mutexes have identities, because an entry can
 be deleted and re-created for the same trade number while threads keep pointers to old ones.
 */
module OrderLock {
  import opened Basics
  import opened Sums

  datatype RcMutex = RcMutex(held: bool, refCount: int)

  datatype Status = Pending | Success | Failed | Expired

  datatype Order = Order(user: nat, amount: int, money: real, provider: string, status: Status)

  const EPAY := "epay"
  const STRIPE := "stripe"

  /** What a thread does while it holds the lock of its order. */
  datatype Job =
    | Notify                  // a verified Epay success notification
    | AdminComplete           // one database transaction that completes the order and credits it
    | Close(provider: string, target: Status)   // one conditional update of a pending order to failed or expired

  /** Progress of a notification; `order` is the row as it was read. */
  datatype Stage = ReadOrder | MarkSuccess(order: Order) | AddQuota(order: Order) | Finished

  datatype Pc =
    | Idle
    | Waiting(no: string, mutex: nat, job: Job)
    | Critical(no: string, mutex: nat, job: Job, stage: Stage)
    | Unlocking(no: string, mutex: nat, loaded: nat)
    | Releasing(no: string, mutex: nat, loaded: nat)

  datatype Credit = Credit(no: string, user: nat, quota: int)

  datatype State = State(
    locks: map<string, nat>,
    mutexes: seq<RcMutex>,
    threads: seq<Pc>,
    orders: map<string, Order>,
    balances: map<nat, int>,
    credits: seq<Credit>,      // every credit ever made, in order
    quotaPerUnit: real,
    fatal: bool)               // an unlock of an unlocked mutex aborts the process

  datatype Event =
    | NewOrder(no: string, order: Order)
    | Run(thread: nat, no: string, job: Job, ok: bool)   // `ok`: does the database call succeed

  // ----- money

  function Units(o: Order): real {
    if o.provider == STRIPE then o.money else o.amount as real
  }

  function Quota(o: Order, quotaPerUnit: real): int {
    Truncate(Units(o) * quotaPerUnit)
  }

  /** The amount of an order in quota: the money paid for Stripe, the ordered amount for all others. */
  predicate Worth(o: Order, quotaPerUnit: real, quota: int) {
    if o.provider == STRIPE then WholePart(quota, o.money * quotaPerUnit) else WholePart(quota, o.amount as real * quotaPerUnit)
  }

  lemma QuotaIsWorth(o: Order, quotaPerUnit: real)
    ensures Worth(o, quotaPerUnit, Quota(o, quotaPerUnit))
  {
    TruncateIsWholePart(Units(o) * quotaPerUnit);
    if o.provider == STRIPE { assert Units(o) == o.money; } else { assert Units(o) == o.amount as real; }
  }

  lemma EpayWorth(o: Order, quotaPerUnit: real)
    requires o.provider == EPAY
    ensures WholePart(Quota(o, quotaPerUnit), o.amount as real * quotaPerUnit)
  {
    assert EPAY[0] != STRIPE[0];
    QuotaIsWorth(o, quotaPerUnit);
  }

  function Balance(balances: map<nat, int>, user: nat): int {
    if user in balances then balances[user] else 0
  }

  function AddCredit(s: State, no: string, o: Order): State {
    var quota := Quota(o, s.quotaPerUnit);
    s.(balances := s.balances[o.user := Balance(s.balances, o.user) + quota],
       credits := s.credits + [Credit(no, o.user, quota)])
  }

  // ----- steps

  predicate PcTyped(pc: Pc, size: nat) {
    && (!pc.Idle? ==> pc.mutex < size)
    && (pc.Unlocking? || pc.Releasing? ==> pc.loaded < size)
  }

  /** Pointers stay inside the pool of allocated mutexes. */
  predicate Typed(s: State) {
    && (forall n <- s.locks :: s.locks[n] < |s.mutexes|)
    && (forall i :: 0 <= i < |s.threads| ==> PcTyped(s.threads[i], |s.mutexes|))
  }

  /** The create section of LockOrder: find or create the mutex, count one more user. */
  function CreateSection(s: State, t: nat, no: string, job: Job): (s': State)
    requires Typed(s) && t < |s.threads|
    ensures Typed(s')
  {
    if no in s.locks then
      var m := s.locks[no];
      s.(mutexes := s.mutexes[m := s.mutexes[m].(refCount := s.mutexes[m].refCount + 1)],
         threads := s.threads[t := Waiting(no, m, job)])
    else
      var m := |s.mutexes|;
      s.(locks := s.locks[no := m],
         mutexes := s.mutexes + [RcMutex(false, 1)],
         threads := s.threads[t := Waiting(no, m, job)])
  }

  /** `rcm.mu.Lock()`: blocks while the mutex is held. */
  function Acquire(s: State, t: nat): (s': State)
    requires Typed(s) && t < |s.threads| && s.threads[t].Waiting?
    ensures Typed(s')
  {
    var pc := s.threads[t];
    if s.mutexes[pc.mutex].held then s else
    s.(mutexes := s.mutexes[pc.mutex := s.mutexes[pc.mutex].(held := true)],
       threads := s.threads[t := Critical(pc.no, pc.mutex, pc.job, ReadOrder)])
  }

  function WithStage(s: State, t: nat, stage: Stage): State
    requires t < |s.threads| && s.threads[t].Critical?
  {
    s.(threads := s.threads[t := s.threads[t].(stage := stage)])
  }

  /** The first database call of a job; administrator and closing jobs are one transaction. */
  function Begin(s: State, t: nat, ok: bool): (s': State)
    requires Typed(s) && t < |s.threads| && s.threads[t].Critical?
    ensures Typed(s')
  {
    var no := s.threads[t].no;
    var done := WithStage(s, t, Finished);
    if !ok || no !in s.orders || s.orders[no].status != Pending then done else
    var o := s.orders[no];
    match s.threads[t].job
    case Notify =>
      if o.provider != EPAY then done else WithStage(s, t, MarkSuccess(o))
    case AdminComplete =>
      if Quota(o, s.quotaPerUnit) <= 0 then done
      else AddCredit(done.(orders := s.orders[no := o.(status := Success)]), no, o)
    case Close(provider, target) =>
      if target.Pending? || target.Success? || (provider != "" && o.provider != provider) then done
      else done.(orders := s.orders[no := o.(status := target)])
  }

  /** One database call made under the lock. */
  function Work(s: State, t: nat, ok: bool): (s': State)
    requires Typed(s) && t < |s.threads| && s.threads[t].Critical? && !s.threads[t].stage.Finished?
    ensures Typed(s')
  {
    var no := s.threads[t].no;
    var done := WithStage(s, t, Finished);
    match s.threads[t].stage
    case ReadOrder => Begin(s, t, ok)
    case MarkSuccess(o) =>
      if !ok then done
      else WithStage(s.(orders := s.orders[no := o.(status := Success)]), t, AddQuota(o))
    case AddQuota(o) =>
      if !ok || Quota(o, s.quotaPerUnit) < 0 then done else AddCredit(done, no, o)
  }

  /** UnlockOrder looks its mutex up again; with no entry it returns without unlocking. */
  function Load(s: State, t: nat): (s': State)
    requires Typed(s) && t < |s.threads| && s.threads[t].Critical?
    ensures Typed(s')
  {
    var pc := s.threads[t];
    s.(threads := s.threads[t := if pc.no in s.locks then Unlocking(pc.no, pc.mutex, s.locks[pc.no]) else Idle])
  }

  function Unlock(s: State, t: nat): (s': State)
    requires Typed(s) && t < |s.threads| && s.threads[t].Unlocking?
    ensures Typed(s')
  {
    var pc := s.threads[t];
    if !s.mutexes[pc.loaded].held then s.(fatal := true) else
    s.(mutexes := s.mutexes[pc.loaded := s.mutexes[pc.loaded].(held := false)],
       threads := s.threads[t := Releasing(pc.no, pc.mutex, pc.loaded)])
  }

  /** The reference-count section of UnlockOrder: the last user deletes the entry. */
  function RefCountSection(s: State, t: nat): (s': State)
    requires Typed(s) && t < |s.threads| && s.threads[t].Releasing?
    ensures Typed(s')
  {
    var pc := s.threads[t];
    var n := s.mutexes[pc.loaded].refCount - 1;
    s.(locks := if n == 0 then s.locks - {pc.no} else s.locks,
       mutexes := s.mutexes[pc.loaded := s.mutexes[pc.loaded].(refCount := n)],
       threads := s.threads[t := Idle])
  }

  predicate Working(pc: Pc) {
    pc.Critical? && !pc.stage.Finished?
  }

  /** The steps of LockOrder and UnlockOrder. */
  function LockStep(s: State, t: nat, no: string, job: Job): (s': State)
    requires Typed(s) && t < |s.threads| && !Working(s.threads[t])
    ensures Typed(s')
  {
    match s.threads[t]
    case Idle => CreateSection(s, t, no, job)
    case Waiting(_, _, _) => Acquire(s, t)
    case Critical(_, _, _, _) => Load(s, t)
    case Unlocking(_, _, _) => Unlock(s, t)
    case Releasing(_, _, _) => RefCountSection(s, t)
  }

  function ThreadStep(s: State, t: nat, no: string, job: Job, ok: bool): (s': State)
    requires Typed(s) && t < |s.threads|
    ensures Typed(s')
  {
    if Working(s.threads[t]) then Work(s, t, ok) else LockStep(s, t, no, job)
  }

  /** A blocked or impossible step leaves the state as it is. */
  function Step(s: State, e: Event): (s': State)
    requires Typed(s)
    ensures Typed(s')
  {
    match e
    case NewOrder(no, o) =>
      if no in s.orders || o.status != Pending then s else s.(orders := s.orders[no := o])
    case Run(t, no, job, ok) =>
      if s.fatal || t >= |s.threads| then s else ThreadStep(s, t, no, job, ok)
  }

  function RunAll(s: State, events: seq<Event>): (s': State)
    requires Typed(s)
    ensures Typed(s')
    decreases |events|
  {
    if events == [] then s else Step(RunAll(s, events[..|events| - 1]), events[|events| - 1])
  }

  /** Process start: no locks, all threads idle, any orders and balances, no credit yet. */
  predicate Initial(s: State) {
    && s.locks == map[] && s.mutexes == [] && s.credits == [] && !s.fatal
    && forall pc <- s.threads :: pc.Idle?
  }

  // ----- the lock invariant

  ghost function Uses(m: nat): Pc -> int {
    (pc: Pc) => if !pc.Idle? && pc.mutex == m then 1 else 0
  }

  ghost function Holds(m: nat): Pc -> int {
    (pc: Pc) => if (pc.Critical? || pc.Unlocking?) && pc.mutex == m then 1 else 0
  }

  /** A busy thread's pointer is the one the map holds for its trade number. */
  ghost predicate PointerCurrent(locks: map<string, nat>, pc: Pc) {
    !pc.Idle? ==>
      && pc.no in locks && locks[pc.no] == pc.mutex
      && (pc.Unlocking? || pc.Releasing? ==> pc.loaded == pc.mutex)
  }

  ghost predicate PointersCurrent(locks: map<string, nat>, threads: seq<Pc>) {
    forall i :: 0 <= i < |threads| ==> PointerCurrent(locks, threads[i])
  }

  ghost predicate EntriesInUse(locks: map<string, nat>, mutexes: seq<RcMutex>) {
    && (forall n <- locks :: locks[n] < |mutexes| && 0 < mutexes[locks[n]].refCount)
    && (forall n <- locks, n' <- locks :: locks[n] == locks[n'] ==> n == n')
  }

  ghost predicate CountExact(mutex: RcMutex, threads: seq<Pc>, m: nat) {
    && mutex.refCount == Sum(threads, Uses(m))
    && (if mutex.held then 1 else 0) == Sum(threads, Holds(m))
  }

  ghost predicate CountsExact(mutexes: seq<RcMutex>, threads: seq<Pc>) {
    forall m :: 0 <= m < |mutexes| ==> CountExact(mutexes[m], threads, m)
  }

  ghost predicate LockInv(s: State) {
    && !s.fatal
    && PointersCurrent(s.locks, s.threads) && EntriesInUse(s.locks, s.mutexes)
    && CountsExact(s.mutexes, s.threads)
  }

  /** Thread `t` moves and mutex `m` absorbs exactly that move. */
  lemma CountsAfter(mutexes: seq<RcMutex>, threads: seq<Pc>, t: nat, pc: Pc, m: nat, x: RcMutex)
    requires CountsExact(mutexes, threads) && t < |threads| && m < |mutexes|
    requires threads[t].Idle? || threads[t].mutex == m
    requires pc.Idle? || pc.mutex == m
    requires x.refCount == mutexes[m].refCount - Uses(m)(threads[t]) + Uses(m)(pc)
    requires (if x.held then 1 else 0)
          == (if mutexes[m].held then 1 else 0) - Holds(m)(threads[t]) + Holds(m)(pc)
    ensures CountsExact(mutexes[m := x], threads[t := pc])
  {
    var mutexes', threads' := mutexes[m := x], threads[t := pc];
    forall k | 0 <= k < |mutexes'|
      ensures CountExact(mutexes'[k], threads', k)
    {
      assert CountExact(mutexes[k], threads, k);
      SumUpdate(threads, t, pc, Uses(k));
      SumUpdate(threads, t, pc, Holds(k));
    }
  }

  /** A thread's contribution is counted, so its mutex has users and, if it holds it, is held. */
  lemma ThreadCounted(s: State, t: nat)
    requires LockInv(s) && t < |s.threads| && !s.threads[t].Idle?
    ensures var pc := s.threads[t];
            && PointerCurrent(s.locks, pc) && pc.mutex < |s.mutexes|
            && 1 <= s.mutexes[pc.mutex].refCount
            && (pc.Critical? || pc.Unlocking? ==> s.mutexes[pc.mutex].held)
  {
    var m := s.threads[t].mutex;
    assert PointerCurrent(s.locks, s.threads[t]);
    assert CountExact(s.mutexes[m], s.threads, m);
    SumBounds(s.threads, Uses(m));
    SumBounds(s.threads, Holds(m));
    assert Uses(m)(s.threads[t]) == 1 <= Sum(s.threads, Uses(m));
    assert Holds(m)(s.threads[t]) <= Sum(s.threads, Holds(m));
  }

  /** A step that leaves the map alone and touches one mutex in use. */
  lemma MoveKeeps(s: State, s': State, t: nat, pc: Pc, m: nat, x: RcMutex)
    requires LockInv(s) && t < |s.threads| && m < |s.mutexes|
    requires !s'.fatal && s'.locks == s.locks
    requires s'.mutexes == s.mutexes[m := x] && s'.threads == s.threads[t := pc]
    requires s.threads[t].Idle? || s.threads[t].mutex == m
    requires !pc.Idle? && pc.mutex == m && PointerCurrent(s.locks, pc)
    requires 0 < x.refCount == s.mutexes[m].refCount - Uses(m)(s.threads[t]) + 1
    requires (if x.held then 1 else 0)
          == (if s.mutexes[m].held then 1 else 0) - Holds(m)(s.threads[t]) + Holds(m)(pc)
    ensures LockInv(s')
  {
    CountsAfter(s.mutexes, s.threads, t, pc, m, x);
    forall i | 0 <= i < |s'.threads| ensures PointerCurrent(s'.locks, s'.threads[i]) {
      assert PointerCurrent(s.locks, s.threads[i]);
    }
  }

  lemma FreshEntryKeeps(s: State, t: nat, no: string, job: Job)
    requires LockInv(s) && Typed(s) && t < |s.threads| && s.threads[t].Idle? && no !in s.locks
    ensures LockInv(CreateSection(s, t, no, job))
  {
    var s' := CreateSection(s, t, no, job);
    var m := |s.mutexes|;
    var pc := Waiting(no, m, job);
    forall i | 0 <= i < |s.threads|
      ensures PointerCurrent(s'.locks, s'.threads[i])
      ensures s.threads[i].Idle? || s.threads[i].mutex != m
    {
      assert PointerCurrent(s.locks, s.threads[i]);
    }
    SumZero(s.threads, Uses(m));
    SumZero(s.threads, Holds(m));
    var unused := s.mutexes + [RcMutex(false, 0)];
    forall k | 0 <= k < |unused| ensures CountExact(unused[k], s.threads, k) {
      if k < m { assert CountExact(s.mutexes[k], s.threads, k); }
    }
    CountsAfter(unused, s.threads, t, pc, m, RcMutex(false, 1));
    assert s'.mutexes == unused[m := RcMutex(false, 1)];
  }

  lemma RefCountSectionKeeps(s: State, t: nat)
    requires LockInv(s) && Typed(s) && t < |s.threads| && s.threads[t].Releasing?
    ensures LockInv(RefCountSection(s, t))
  {
    var m := s.threads[t].mutex;
    var s' := RefCountSection(s, t);
    ThreadCounted(s, t);
    CountsAfter(s.mutexes, s.threads, t, Idle, m, s'.mutexes[m]);
    assert CountExact(s'.mutexes[m], s'.threads, m);
    SumBounds(s'.threads, Uses(m));
    forall i | 0 <= i < |s'.threads| ensures PointerCurrent(s'.locks, s'.threads[i]) {
      assert PointerCurrent(s.locks, s.threads[i]);
      // another user of the same mutex keeps the count positive
      assert Uses(m)(s'.threads[i]) <= s'.mutexes[m].refCount;
    }
  }

  /** The same for the lock, except that thread `t` is at another stage of its work. */
  ghost predicate Advanced(s: State, s': State, t: nat)
    requires t < |s.threads| && s.threads[t].Critical?
  {
    && s'.locks == s.locks && s'.mutexes == s.mutexes && s'.fatal == s.fatal && s'.quotaPerUnit == s.quotaPerUnit
    && exists stage :: stage != s.threads[t].stage && s'.threads == s.threads[t := s.threads[t].(stage := stage)]
  }

  /** Database work touches no lock and moves only its own thread's stage. */
  lemma WorkFrame(s: State, t: nat, ok: bool)
    requires Typed(s) && t < |s.threads| && Working(s.threads[t])
    ensures Advanced(s, Work(s, t, ok), t)
  {
    if s.threads[t].stage.ReadOrder? { BeginFrame(s, t, ok); } else { FinishFrame(s, t, ok); }
  }

  lemma BeginFrame(s: State, t: nat, ok: bool)
    requires Typed(s) && t < |s.threads| && s.threads[t].Critical? && s.threads[t].stage.ReadOrder?
    ensures Advanced(s, Begin(s, t, ok), t)
  {
    var s' := Begin(s, t, ok);
    assert s'.threads == s.threads[t := s.threads[t].(stage := s'.threads[t].stage)];
  }

  lemma FinishFrame(s: State, t: nat, ok: bool)
    requires Typed(s) && t < |s.threads| && s.threads[t].Critical?
    requires s.threads[t].stage.MarkSuccess? || s.threads[t].stage.AddQuota?
    ensures Advanced(s, Work(s, t, ok), t)
  {
    var s' := Work(s, t, ok);
    assert s'.threads == s.threads[t := s.threads[t].(stage := s'.threads[t].stage)];
  }

  lemma CriticalStepKeepsLock(s: State, t: nat, ok: bool)
    requires LockInv(s) && Typed(s) && t < |s.threads| && s.threads[t].Critical?
    ensures LockInv(if s.threads[t].stage.Finished? then Load(s, t) else Work(s, t, ok))
  {
    var s' := if s.threads[t].stage.Finished? then Load(s, t) else Work(s, t, ok);
    if !s.threads[t].stage.Finished? { WorkFrame(s, t, ok); }
    ThreadCounted(s, t);
    var m := s.threads[t].mutex;
    assert s'.mutexes == s.mutexes[m := s.mutexes[m]];
    MoveKeeps(s, s', t, s'.threads[t], m, s.mutexes[m]);
  }

  lemma MutexStepKeepsLock(s: State, t: nat)
    requires LockInv(s) && Typed(s) && t < |s.threads| && (s.threads[t].Waiting? || s.threads[t].Unlocking?)
    ensures LockInv(if s.threads[t].Waiting? then Acquire(s, t) else Unlock(s, t))
  {
    var s' := if s.threads[t].Waiting? then Acquire(s, t) else Unlock(s, t);
    ThreadCounted(s, t);
    var m := s.threads[t].mutex;
    if s' != s {
      MoveKeeps(s, s', t, s'.threads[t], m, s'.mutexes[m]);
    }
  }

  lemma CreateSectionKeeps(s: State, t: nat, no: string, job: Job)
    requires LockInv(s) && Typed(s) && t < |s.threads| && s.threads[t].Idle?
    ensures LockInv(CreateSection(s, t, no, job))
  {
    if no in s.locks {
      var s' := CreateSection(s, t, no, job);
      var m := s.locks[no];
      MoveKeeps(s, s', t, Waiting(no, m, job), m, s'.mutexes[m]);
    } else {
      FreshEntryKeeps(s, t, no, job);
    }
  }

  lemma ThreadStepKeepsLock(s: State, t: nat, no: string, job: Job, ok: bool)
    requires LockInv(s) && Typed(s) && t < |s.threads|
    ensures LockInv(ThreadStep(s, t, no, job, ok))
  {
    match s.threads[t]
    case Idle => CreateSectionKeeps(s, t, no, job);
    case Critical(_, _, _, _) => CriticalStepKeepsLock(s, t, ok);
    case Releasing(_, _, _) => RefCountSectionKeeps(s, t);
    case _ => MutexStepKeepsLock(s, t);
  }

  // ----- the money invariant

  ghost function CreditedTo(user: nat): Credit -> int {
    (c: Credit) => if c.user == user then c.quota else 0
  }

  ghost predicate Credited(credits: seq<Credit>, no: string) {
    exists i :: 0 <= i < |credits| && credits[i].no == no
  }

  ghost predicate CreditSound(s: State, c: Credit) {
    && c.no in s.orders && s.orders[c.no].status == Success
    && c.user == s.orders[c.no].user
    && c.quota == Quota(s.orders[c.no], s.quotaPerUnit)
  }

  ghost predicate CreditsSound(s: State) {
    && (forall i, j :: 0 <= i < j < |s.credits| ==> s.credits[i].no != s.credits[j].no)
    && (forall i :: 0 <= i < |s.credits| ==> CreditSound(s, s.credits[i]))
  }

  /** A notification between its read and its credit still knows the true row. */
  ghost predicate StageSound(orders: map<string, Order>, credits: seq<Credit>, pc: Pc) {
    pc.Critical? ==>
      match pc.stage
      case MarkSuccess(o) =>
        pc.job.Notify? && o.status == Pending && o.provider == EPAY && pc.no in orders && orders[pc.no] == o
      case AddQuota(o) =>
        && pc.job.Notify? && o.status == Pending && o.provider == EPAY
        && pc.no in orders && orders[pc.no] == o.(status := Success) && !Credited(credits, pc.no)
      case _ => true
  }

  ghost predicate StagesSound(s: State) {
    forall i :: 0 <= i < |s.threads| ==> StageSound(s.orders, s.credits, s.threads[i])
  }

  ghost predicate LedgerExact(s: State, opening: map<nat, int>) {
    forall u: nat :: Balance(s.balances, u) == Balance(opening, u) + Sum(s.credits, CreditedTo(u))
  }

  ghost predicate MoneyInv(s: State, opening: map<nat, int>) {
    CreditsSound(s) && StagesSound(s) && LedgerExact(s, opening)
  }

  /** From taking the mutex to `mu.Unlock`. */
  predicate Holding(pc: Pc) { pc.Critical? || pc.Unlocking? }

  /** At most one thread holds the lock of a trade number. */
  lemma MutualExclusion(s: State, i: nat, j: nat)
    requires LockInv(s) && i < |s.threads| && j < |s.threads| && i != j
    requires Holding(s.threads[i]) && Holding(s.threads[j])
    ensures s.threads[i].no != s.threads[j].no
  {
    if s.threads[i].no == s.threads[j].no {
      var m := s.threads[i].mutex;
      ThreadCounted(s, i);
      ThreadCounted(s, j);
      assert CountExact(s.mutexes[m], s.threads, m);
      SumPair(s.threads, if i < j then i else j, if i < j then j else i, Holds(m));
    }
  }

  /** Recording one more credit for an order that had none keeps list and ledger exact. */
  lemma AddCreditKeeps(s: State, no: string, o: Order, opening: map<nat, int>)
    requires CreditsSound(s) && !Credited(s.credits, no) && LedgerExact(s, opening)
    requires no in s.orders && s.orders[no] == o.(status := Success)
    ensures CreditsSound(AddCredit(s, no, o)) && LedgerExact(AddCredit(s, no, o), opening)
  {
    var s' := AddCredit(s, no, o);
    forall i | 0 <= i < |s'.credits| ensures CreditSound(s', s'.credits[i]) {
      if i < |s.credits| { assert CreditSound(s, s.credits[i]); }
    }
    AddCreditLedger(s, no, o, opening);
  }

  lemma AddCreditLedger(s: State, no: string, o: Order, opening: map<nat, int>)
    requires LedgerExact(s, opening)
    ensures LedgerExact(AddCredit(s, no, o), opening)
  {
    var s' := AddCredit(s, no, o);
    forall u: nat
      ensures Balance(s'.balances, u) == Balance(opening, u) + Sum(s'.credits, CreditedTo(u))
    {
      assert s'.credits[..|s'.credits| - 1] == s.credits;
    }
  }

  /** A pending order has no credit, so moving it out of pending spoils no recorded credit. */
  lemma StatusChangeKeeps(s: State, s': State, no: string, o: Order)
    requires CreditsSound(s) && no in s.orders && s.orders[no] == o && o.status == Pending
    requires no in s'.orders && s'.orders == s.orders[no := s'.orders[no]]
    requires s'.credits == s.credits && s'.quotaPerUnit == s.quotaPerUnit
    ensures CreditsSound(s') && !Credited(s.credits, no)
  {
    forall i | 0 <= i < |s.credits| ensures CreditSound(s', s'.credits[i]) && s.credits[i].no != no {
      assert CreditSound(s, s.credits[i]);
    }
  }

  /** Only the holder of a trade number touches that order, so the other threads stay sound. */
  lemma OthersStaySound(s: State, s': State, t: nat, pc: Pc)
    requires LockInv(s) && StagesSound(s) && t < |s.threads| && s.threads[t].Critical?
    requires s'.threads == s.threads[t := pc] && StageSound(s'.orders, s'.credits, pc)
    requires forall n :: n in s.orders && n != s.threads[t].no ==> n in s'.orders && s'.orders[n] == s.orders[n]
    requires forall n :: n != s.threads[t].no && Credited(s'.credits, n) ==> Credited(s.credits, n)
    ensures StagesSound(s')
  {
    forall i | 0 <= i < |s'.threads|
      ensures StageSound(s'.orders, s'.credits, s'.threads[i])
    {
      if i != t && s.threads[i].Critical? {
        MutualExclusion(s, i, t);
        assert StageSound(s.orders, s.credits, s.threads[i]);
      }
    }
  }

  /** A step that changes at most its own order and records no credit. */
  lemma OrderStepKeepsMoney(s: State, s': State, t: nat, pc: Pc, opening: map<nat, int>)
    requires LockInv(s) && MoneyInv(s, opening) && t < |s.threads| && s.threads[t].Critical?
    requires s'.threads == s.threads[t := pc] && StageSound(s'.orders, s'.credits, pc)
    requires s'.credits == s.credits && s'.balances == s.balances && s'.quotaPerUnit == s.quotaPerUnit
    requires var no := s.threads[t].no;
             || s'.orders == s.orders
             || (&& no in s.orders && s.orders[no].status == Pending
                 && no in s'.orders && s'.orders == s.orders[no := s'.orders[no]])
    ensures MoneyInv(s', opening)
  {
    if s'.orders == s.orders {
      forall i | 0 <= i < |s'.credits| ensures CreditSound(s', s'.credits[i]) {
        assert CreditSound(s, s.credits[i]);
      }
    } else {
      StatusChangeKeeps(s, s', s.threads[t].no, s.orders[s.threads[t].no]);
    }
    OthersStaySound(s, s', t, pc);
  }

  /** A step that credits the thread's own order, marked successful and not credited before. */
  lemma CreditStepKeepsMoney(s: State, mid: State, t: nat, o: Order, opening: map<nat, int>)
    requires LockInv(s) && MoneyInv(s, opening) && t < |s.threads| && s.threads[t].Critical?
    requires MoneyInv(mid, opening) && mid.threads == s.threads[t := s.threads[t].(stage := Finished)]
    requires mid.credits == s.credits && !Credited(s.credits, s.threads[t].no)
    requires var no := s.threads[t].no;
             no in mid.orders && mid.orders == s.orders[no := mid.orders[no]] && mid.orders[no] == o.(status := Success)
    ensures MoneyInv(AddCredit(mid, s.threads[t].no, o), opening)
  {
    var no := s.threads[t].no;
    var s' := AddCredit(mid, no, o);
    AddCreditKeeps(mid, no, o, opening);
    forall n | n != no && Credited(s'.credits, n) ensures Credited(s.credits, n) {
      var i :| 0 <= i < |s'.credits| && s'.credits[i].no == n;
      assert s.credits[i].no == n;
    }
    OthersStaySound(s, s', t, s'.threads[t]);
  }

  lemma BeginKeepsMoney(s: State, t: nat, ok: bool, opening: map<nat, int>)
    requires LockInv(s) && Typed(s) && MoneyInv(s, opening)
    requires t < |s.threads| && s.threads[t].Critical?
    ensures MoneyInv(Begin(s, t, ok), opening)
  {
    var no := s.threads[t].no;
    var s' := Begin(s, t, ok);
    if s'.credits == s.credits {
      OrderStepKeepsMoney(s, s', t, s'.threads[t], opening);
    } else {
      var o := s.orders[no];
      var mid := WithStage(s, t, Finished).(orders := s.orders[no := o.(status := Success)]);
      OrderStepKeepsMoney(s, mid, t, mid.threads[t], opening);
      StatusChangeKeeps(s, mid, no, o);
      CreditStepKeepsMoney(s, mid, t, o, opening);
    }
  }

  lemma WorkKeepsMoney(s: State, t: nat, ok: bool, opening: map<nat, int>)
    requires LockInv(s) && Typed(s) && MoneyInv(s, opening) && t < |s.threads| && Working(s.threads[t])
    ensures MoneyInv(Work(s, t, ok), opening)
  {
    var pc := s.threads[t];
    var s' := Work(s, t, ok);
    assert StageSound(s.orders, s.credits, pc);
    if pc.stage.ReadOrder? {
      BeginKeepsMoney(s, t, ok, opening);
    } else if s'.credits == s.credits {
      if s'.orders != s.orders { StatusChangeKeeps(s, s', pc.no, s.orders[pc.no]); }
      OrderStepKeepsMoney(s, s', t, s'.threads[t], opening);
    } else {
      var mid := WithStage(s, t, Finished);
      OrderStepKeepsMoney(s, mid, t, mid.threads[t], opening);
      CreditStepKeepsMoney(s, mid, t, pc.stage.order, opening);
    }
  }

  /** The steps of LockOrder and UnlockOrder touch no order, credit or balance. */
  lemma LockStepFrame(s: State, t: nat, no: string, job: Job)
    requires Typed(s) && t < |s.threads| && !Working(s.threads[t])
    ensures var s' := LockStep(s, t, no, job);
            && s'.orders == s.orders && s'.credits == s.credits
            && s'.balances == s.balances && s'.quotaPerUnit == s.quotaPerUnit
            && s'.threads == s.threads[t := s'.threads[t]]
            && (Working(s'.threads[t]) ==> s'.threads[t].stage == ReadOrder)
  {
    var s' := LockStep(s, t, no, job);
    match s.threads[t]
    case Idle => assert s' == CreateSection(s, t, no, job);
    case Waiting(_, _, _) => assert s' == Acquire(s, t);
    case Critical(_, _, _, _) => assert s' == Load(s, t);
    case Unlocking(_, _, _) => assert s' == Unlock(s, t);
    case Releasing(_, _, _) => assert s' == RefCountSection(s, t);
  }

  lemma LockStepKeepsMoney(s: State, t: nat, no: string, job: Job, opening: map<nat, int>)
    requires Typed(s) && MoneyInv(s, opening) && t < |s.threads| && !Working(s.threads[t])
    ensures MoneyInv(LockStep(s, t, no, job), opening)
  {
    var s' := LockStep(s, t, no, job);
    LockStepFrame(s, t, no, job);
    forall i | 0 <= i < |s'.threads| ensures StageSound(s'.orders, s'.credits, s'.threads[i]) {
      assert StageSound(s.orders, s.credits, s.threads[i]);
    }
    forall i | 0 <= i < |s'.credits| ensures CreditSound(s', s'.credits[i]) {
      assert CreditSound(s, s.credits[i]);
    }
  }

  lemma NewOrderKeepsMoney(s: State, no: string, o: Order, opening: map<nat, int>)
    requires MoneyInv(s, opening) && no !in s.orders
    ensures MoneyInv(s.(orders := s.orders[no := o]), opening)
  {
    var s' := s.(orders := s.orders[no := o]);
    forall i | 0 <= i < |s'.threads| ensures StageSound(s'.orders, s'.credits, s'.threads[i]) {
      assert StageSound(s.orders, s.credits, s.threads[i]);
    }
    forall i | 0 <= i < |s'.credits| ensures CreditSound(s', s'.credits[i]) {
      assert CreditSound(s, s.credits[i]);
    }
  }

  lemma StepKeeps(s: State, e: Event, opening: map<nat, int>)
    requires LockInv(s) && Typed(s) && MoneyInv(s, opening)
    ensures LockInv(Step(s, e)) && MoneyInv(Step(s, e), opening)
  {
    if e.NewOrder? {
      if e.no !in s.orders { NewOrderKeepsMoney(s, e.no, e.order, opening); }
    } else if e.thread < |s.threads| {
      ThreadStepKeepsLock(s, e.thread, e.no, e.job, e.ok);
      if Working(s.threads[e.thread]) {
        WorkKeepsMoney(s, e.thread, e.ok, opening);
      } else {
        LockStepKeepsMoney(s, e.thread, e.no, e.job, opening);
      }
    }
  }

  /** Both invariants hold after every finite interleaving. */
  lemma {:induction false} RunKeeps(s: State, events: seq<Event>)
    requires Initial(s)
    ensures LockInv(RunAll(s, events)) && MoneyInv(RunAll(s, events), s.balances)
    decreases |events|
  {
    if events != [] {
      RunKeeps(s, events[..|events| - 1]);
      StepKeeps(RunAll(s, events[..|events| - 1]), events[|events| - 1], s.balances);
    }
  }

  // ----- what the protocol promises, for every interleaving

  ghost function UsersOf(s: State, no: string): int {
    Sum(s.threads, (pc: Pc) => if !pc.Idle? && pc.no == no then 1 else 0)
  }

  lemma UsersOfEntry(s: State, no: string)
    requires LockInv(s) && no in s.locks
    ensures s.mutexes[s.locks[no]].refCount == UsersOf(s, no)
  {
    var byName := (pc: Pc) => if !pc.Idle? && pc.no == no then 1 else 0;
    var m := s.locks[no];
    SumMonotone(s.threads, Uses(m), byName);
    SumMonotone(s.threads, byName, Uses(m));
  }

  /**
   Lock protocol. A map entry exists exactly for the trade numbers some thread is using, its
   reference count is the number of those threads (waiting, holding, or not yet decremented),
   at most one of them holds the lock, and UnlockOrder finds the mutex it locked, held.
   */
  lemma LockProtocol(s: State, events: seq<Event>)
    requires Initial(s)
    ensures var r := RunAll(s, events);
      && !r.fatal
      && (forall no :: no in r.locks <==> 0 < UsersOf(r, no))
      && (forall no <- r.locks :: r.mutexes[r.locks[no]].refCount == UsersOf(r, no))
      && (forall i, j :: 0 <= i < j < |r.threads| && Holding(r.threads[i]) && Holding(r.threads[j]) ==>
            r.threads[i].no != r.threads[j].no)
      && (forall pc <- r.threads :: Holding(pc) ==>
            pc.no in r.locks && r.locks[pc.no] == pc.mutex && r.mutexes[pc.mutex].held
            && (pc.Unlocking? ==> pc.loaded == pc.mutex))
  {
    var r := RunAll(s, events);
    RunKeeps(s, events);
    forall no ensures no in r.locks <==> 0 < UsersOf(r, no) {
      if no in r.locks {
        UsersOfEntry(r, no);
      } else if 0 < UsersOf(r, no) {
        var i := SumWitness(r.threads, (pc: Pc) => if !pc.Idle? && pc.no == no then 1 else 0);
      }
    }
    forall no <- r.locks ensures r.mutexes[r.locks[no]].refCount == UsersOf(r, no) {
      UsersOfEntry(r, no);
    }
    forall i, j | 0 <= i < j < |r.threads| && Holding(r.threads[i]) && Holding(r.threads[j])
      ensures r.threads[i].no != r.threads[j].no
    {
      MutualExclusion(r, i, j);
    }
    forall i | 0 <= i < |r.threads| && Holding(r.threads[i])
      ensures r.mutexes[r.threads[i].mutex].held
    {
      ThreadCounted(r, i);
    }
  }

  /** No entry outlives its users. */
  lemma NoEntryLeft(s: State, events: seq<Event>)
    requires Initial(s)
    requires forall pc <- RunAll(s, events).threads :: pc.Idle?
    ensures RunAll(s, events).locks == map[]
  {
    var r := RunAll(s, events);
    LockProtocol(s, events);
    forall no ensures no !in r.locks {
      SumZero(r.threads, (pc: Pc) => if !pc.Idle? && pc.no == no then 1 else 0);
    }
  }

  /** A busy thread moves unless it waits for a mutex that is held. */
  lemma BusyThreadMoves(s: State, t: nat)
    requires LockInv(s) && Typed(s) && t < |s.threads| && !s.threads[t].Idle?
    requires s.threads[t].Waiting? ==> !s.mutexes[s.threads[t].mutex].held
    ensures ThreadStep(s, t, "", Notify, true).threads[t] != s.threads[t]
  {
    ThreadCounted(s, t);
    var pc := s.threads[t];
    if pc.Critical? && !pc.stage.Finished? { WorkFrame(s, t, true); }
  }

  /** While any thread is busy, some busy thread can move: waiting never becomes a deadlock. */
  lemma NoDeadlock(s: State, events: seq<Event>, w: nat)
    requires Initial(s)
    requires w < |RunAll(s, events).threads| && !RunAll(s, events).threads[w].Idle?
    ensures var r := RunAll(s, events);
      exists t: nat, ok :: t < |r.threads| && !r.threads[t].Idle? && Step(r, Run(t, "", Notify, ok)) != r
  {
    var r := RunAll(s, events);
    RunKeeps(s, events);
    ThreadCounted(r, w);
    var t := w;
    var m := r.threads[w].mutex;
    if r.threads[w].Waiting? && r.mutexes[m].held {
      assert CountExact(r.mutexes[m], r.threads, m);
      t := SumWitness(r.threads, Holds(m));
    }
    BusyThreadMoves(r, t);
    assert Step(r, Run(t, "", Notify, true)) == ThreadStep(r, t, "", Notify, true) != r;
  }

  /**
   Credit. Whatever the interleaving of notifications, administrator completions and closing
   updates, each order is credited at most once, only an order that is now marked successful,
   by exactly its quota, and every user's balance is the opening balance plus those credits.
   */
  lemma CreditedAtMostOnce(s: State, events: seq<Event>)
    requires Initial(s)
    ensures var r := RunAll(s, events);
      && (forall i, j :: 0 <= i < j < |r.credits| ==> r.credits[i].no != r.credits[j].no)
      && (forall c <- r.credits ::
            c.no in r.orders && r.orders[c.no].status == Success && c.user == r.orders[c.no].user
            && c.quota == Quota(r.orders[c.no], r.quotaPerUnit) && Worth(r.orders[c.no], r.quotaPerUnit, c.quota))
      && (forall u: nat :: Balance(r.balances, u) == Balance(s.balances, u) + Sum(r.credits, CreditedTo(u)))
  {
    RunKeeps(s, events);
    var r := RunAll(s, events);
    forall i | 0 <= i < |r.credits| ensures Worth(r.orders[r.credits[i].no], r.quotaPerUnit, r.credits[i].quota) {
      assert CreditSound(r, r.credits[i]);
      QuotaIsWorth(r.orders[r.credits[i].no], r.quotaPerUnit);
    }
  }

  /** What an uninterrupted database call does for a pending order. */
  lemma WorkDoes(s: State, t: nat)
    requires Typed(s) && t < |s.threads| && Working(s.threads[t]) && s.threads[t].stage == ReadOrder
    requires s.threads[t].no in s.orders && s.orders[s.threads[t].no].status == Pending
    ensures var no := s.threads[t].no; var o, s' := s.orders[no], Work(s, t, true);
      match s.threads[t].job
      case Notify =>
        s'.orders == s.orders && s'.credits == s.credits
        && s'.threads[t].stage == if o.provider == EPAY then MarkSuccess(o) else Finished
      case AdminComplete =>
        var quota := Quota(o, s.quotaPerUnit);
        && s'.threads[t].stage == Finished
        && if quota > 0 then
             && s'.orders == s.orders[no := o.(status := Success)] && s'.credits == s.credits + [Credit(no, o.user, quota)]
             && Balance(s'.balances, o.user) == Balance(s.balances, o.user) + quota
           else s'.orders == s.orders && s'.credits == s.credits
      case Close(provider, target) =>
        && s'.threads[t].stage == Finished && s'.credits == s.credits
        && s'.orders == if target.Pending? || target.Success? || (provider != "" && provider != o.provider) then s.orders
                        else s.orders[no := o.(status := target)]
  {
  }

  /** A notification credits only an order that it read as pending with the Epay provider, by its amount. */
  lemma NotifyCreditsPendingEpay(s: State, events: seq<Event>, e: Event)
    requires Initial(s) && e.Run?
    requires var r := RunAll(s, events);
             e.thread < |r.threads| && r.threads[e.thread].Critical? && r.threads[e.thread].job.Notify?
    requires Step(RunAll(s, events), e).credits != RunAll(s, events).credits
    ensures var r := RunAll(s, events);
            NotifyCredits(r, Step(r, e), r.threads[e.thread])
  {
    RunKeeps(s, events);
    var r := RunAll(s, events);
    NotifyStepAdds(r, e, s.balances);
    AmountAdded(r, Step(r, e), r.threads[e.thread]);
  }

  ghost predicate NotifyCredits(r: State, r': State, pc: Pc) {
    && pc.Critical? && pc.stage.AddQuota? && !Credited(r.credits, pc.no)
    && var o := pc.stage.order;
       && o.status == Pending && o.provider == EPAY
       && |r'.credits| == |r.credits| + 1 && r'.credits[..|r.credits|] == r.credits
       && var c := r'.credits[|r.credits|];
          c.no == pc.no && c.user == o.user && WholePart(c.quota, o.amount as real * r.quotaPerUnit)
  }

  ghost predicate NotifyAdds(r: State, r': State, pc: Pc) {
    && pc.Critical? && pc.stage.AddQuota? && !Credited(r.credits, pc.no)
    && pc.stage.order.status == Pending && pc.stage.order.provider == EPAY
    && r'.credits == r.credits + [Credit(pc.no, pc.stage.order.user, Quota(pc.stage.order, r.quotaPerUnit))]
  }

  lemma NotifyStepAdds(r: State, e: Event, opening: map<nat, int>)
    requires LockInv(r) && Typed(r) && MoneyInv(r, opening) && e.Run?
    requires e.thread < |r.threads| && r.threads[e.thread].Critical? && r.threads[e.thread].job.Notify?
    requires Step(r, e).credits != r.credits
    ensures NotifyAdds(r, Step(r, e), r.threads[e.thread])
  {
    assert StageSound(r.orders, r.credits, r.threads[e.thread]);
  }

  lemma AmountAdded(r: State, r': State, pc: Pc)
    requires NotifyAdds(r, r', pc)
    ensures NotifyCredits(r, r', pc)
  {
    EpayWorth(pc.stage.order, r.quotaPerUnit);
  }
}
