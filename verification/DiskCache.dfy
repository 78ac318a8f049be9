/**
 Capacity accounting of the request-body disk cache.

 Any number of requests store bodies on disk and close them again. Three shared counters are
 updated by single atomic operations: bytes in use, reserved bytes and active files. Every
 atomic operation is one step, including the two loads and the compare-and-swap of
 `ReserveDiskCache`, so usage and reservation overlap while a write is being committed.
 */
module DiskCache {
  import opened Sums

  /** What a reservation is for: a whole body, or the next chunk of a streamed one. */
  datatype Goal = Whole | Chunk(written: nat)

  datatype Pc =
    | Idle
    | Streaming(written: nat)                                  // head of the copy loop
    | LoadUsage(goal: Goal, size: nat)
    | LoadReserved(goal: Goal, size: nat, usage: int)
    | Cas(goal: Goal, size: nat, usage: int, reserved: int)
    | Write(goal: Goal, size: nat)                             // reservation granted
    | CountFile(size: nat)                                     // whole body written
    | CountBytes(size: nat)
    | DropReservation(size: nat, stored: bool)                 // the deferred release
    | Commit(written: nat, size: nat, now: nat)                // `now` of `size` bytes written
    | CommitRelease(written: nat, size: nat, now: nat)
    | ReleaseRest(written: nat, rest: nat)                     // short write
    | Open(size: nat)                                          // a usable body storage
    | UncountFile(size: nat)                                   // file removed: cleanup or Close
    | UncountBytes(size: nat)

  datatype State = State(
    usage: int, reserved: int, files: int,
    max: int, enabled: bool,
    workers: seq<Pc>,
    clamped: bool)             // a counter went below zero and was stored back as zero

  datatype Outcome = Fail | Continue | Finish

  /** One scheduled worker, with the results of the I/O it does in this step. */
  datatype Event = Event(worker: nat, stream: bool, n: nat, outcome: Outcome)

  // ----- counters

  function To(s: State, w: nat, pc: Pc): State
    requires w < |s.workers|
  {
    s.(workers := s.workers[w := pc])
  }

  function Release(s: State, size: nat): State {
    if s.reserved - size < 0 then s.(reserved := 0, clamped := true) else s.(reserved := s.reserved - size)
  }

  function SubFile(s: State): State {
    if s.files - 1 < 0 then s.(files := 0, clamped := true) else s.(files := s.files - 1)
  }

  function SubUsage(s: State, size: nat): State {
    if s.usage - size < 0 then s.(usage := 0, clamped := true) else s.(usage := s.usage - size)
  }

  function GiveUp(goal: Goal): Pc {
    if goal.Whole? then Idle else UncountFile(goal.written)
  }

  function AfterChunk(written: nat, outcome: Outcome): Pc {
    match outcome
    case Fail => UncountFile(written)
    case Continue => Streaming(written)
    case Finish => Open(written)
  }

  // ----- steps

  predicate CasSucceeds(s: State, pc: Pc) {
    pc.Cas? && pc.usage + pc.reserved + pc.size <= s.max && s.reserved == pc.reserved
  }

  predicate Reserving(pc: Pc) { pc.LoadUsage? || pc.LoadReserved? || pc.Cas? }
  predicate CountingWhole(pc: Pc) { pc.CountFile? || pc.CountBytes? || pc.DropReservation? }
  predicate CountingChunk(pc: Pc) { pc.Commit? || pc.CommitRelease? || pc.ReleaseRest? }
  predicate Leaving(pc: Pc) { pc.Open? || pc.UncountFile? || pc.UncountBytes? }

  /** ReserveDiskCache: two loads, then the check and the compare-and-swap. */
  function ReserveStep(s: State, w: nat): State
    requires w < |s.workers| && Reserving(s.workers[w])
  {
    match s.workers[w]
    case LoadUsage(goal, size) => To(s, w, LoadReserved(goal, size, s.usage))
    case LoadReserved(goal, size, usage) => To(s, w, Cas(goal, size, usage, s.reserved))
    case Cas(goal, size, usage, reserved) =>
      if usage + reserved + size > s.max then To(s, w, GiveUp(goal))
      else if s.reserved != reserved then To(s, w, LoadUsage(goal, size))
      else To(s.(reserved := reserved + size), w, Write(goal, size))
  }

  /** newDiskStorage after its write: count file and bytes, then the deferred release. */
  function WholeStep(s: State, w: nat): State
    requires w < |s.workers| && CountingWhole(s.workers[w])
  {
    match s.workers[w]
    case CountFile(size) => To(s.(files := s.files + 1), w, CountBytes(size))
    case CountBytes(size) => To(s.(usage := s.usage + size), w, DropReservation(size, true))
    case DropReservation(size, stored) => To(Release(s, size), w, if stored then Open(size) else Idle)
  }

  /** One chunk of newDiskStorageFromReader after its write: commit, release a short write. */
  function ChunkStep(s: State, w: nat, outcome: Outcome): State
    requires w < |s.workers| && CountingChunk(s.workers[w])
  {
    match s.workers[w]
    case Commit(written, size, now) => To(s.(usage := s.usage + now), w, CommitRelease(written, size, now))
    case CommitRelease(written, size, now) =>
      To(Release(s, now), w,
         if now < size then ReleaseRest(written + now, size - now) else AfterChunk(written + now, outcome))
    case ReleaseRest(written, rest) => To(Release(s, rest), w, UncountFile(written))
  }

  /** Close and cleanup: the file is removed first, then both counters go down. */
  function LeaveStep(s: State, w: nat): State
    requires w < |s.workers| && Leaving(s.workers[w])
  {
    match s.workers[w]
    case Open(size) => To(s, w, UncountFile(size))
    case UncountFile(size) => To(SubFile(s), w, UncountBytes(size))
    case UncountBytes(size) => To(SubUsage(s, size), w, Idle)
  }

  /** Starting a body, reading the next chunk, and the file write itself. */
  function FileStep(s: State, w: nat, e: Event): State
    requires w < |s.workers|
    requires var pc := s.workers[w]; pc.Idle? || pc.Streaming? || pc.Write?
  {
    match s.workers[w]
    case Idle => StartStep(s, w, e)
    case Streaming(written) => ReadStep(s, w, e)
    case Write(goal, size) => WriteStep(s, w, e)
  }

  function StartStep(s: State, w: nat, e: Event): State
    requires w < |s.workers| && s.workers[w].Idle?
  {
    if e.stream then (if e.outcome.Fail? then s else To(s.(files := s.files + 1), w, Streaming(0)))
    else if e.n == 0 || !s.enabled then s
    else To(s, w, LoadUsage(Whole, e.n))
  }

  function ReadStep(s: State, w: nat, e: Event): State
    requires w < |s.workers| && s.workers[w].Streaming?
  {
    var written := s.workers[w].written;
    if e.outcome.Continue? && e.n > 0 then
      To(s, w, if s.enabled then LoadUsage(Chunk(written), e.n) else UncountFile(written))
    else To(s, w, AfterChunk(written, e.outcome))
  }

  function WriteStep(s: State, w: nat, e: Event): State
    requires w < |s.workers| && s.workers[w].Write?
  {
    var size := s.workers[w].size;
    match s.workers[w].goal
    case Whole => To(s, w, if e.outcome.Fail? then DropReservation(size, false) else CountFile(size))
    case Chunk(written) =>
      var now := if e.n < size then e.n else size;
      To(s, w, if now > 0 then Commit(written, size, now) else ReleaseRest(written, size))
  }

  function Step(s: State, e: Event): State {
    if e.worker >= |s.workers| then s else
    var w := e.worker;
    var pc := s.workers[w];
    if Reserving(pc) then ReserveStep(s, w)
    else if CountingWhole(pc) then WholeStep(s, w)
    else if CountingChunk(pc) then ChunkStep(s, w, e.outcome)
    else if Leaving(pc) then LeaveStep(s, w)
    else FileStep(s, w, e)
  }

  function RunAll(s: State, events: seq<Event>): State {
    if events == [] then s else Step(RunAll(s, events[..|events| - 1]), events[|events| - 1])
  }

  predicate Initial(s: State) {
    && s.usage == 0 && s.reserved == 0 && s.files == 0 && 0 <= s.max && !s.clamped
    && forall i :: 0 <= i < |s.workers| ==> s.workers[i].Idle?
  }

  /** A stream that ends well becomes an open body of all its bytes, one that fails is cleaned up. */
  lemma StreamEnds(s: State, e: Event)
    requires e.worker < |s.workers|
    ensures var pc, pc' := s.workers[e.worker], Step(s, e).workers[e.worker];
      && (pc.Streaming? && e.outcome.Finish? ==> pc' == Open(pc.written))
      && (pc.Streaming? && e.outcome.Fail? ==> pc' == UncountFile(pc.written))
      && (pc.CommitRelease? && pc.now >= pc.size && e.outcome.Finish? ==> pc' == Open(pc.written + pc.now))
      && (pc.CommitRelease? && pc.now >= pc.size && e.outcome.Continue? ==> pc' == Streaming(pc.written + pc.now))
      && (pc.CommitRelease? && pc.now < pc.size ==> pc' == ReleaseRest(pc.written + pc.now, pc.size - pc.now))
      && (pc.DropReservation? && pc.stored ==> pc' == Open(pc.size))
  {
  }

  // ----- each worker's share of the counters

  function Written(goal: Goal): nat {
    if goal.Whole? then 0 else goal.written
  }

  function UsageShare(pc: Pc): int {
    match pc
    case Streaming(written) => written
    case LoadUsage(goal, _) => Written(goal)
    case LoadReserved(goal, _, _) => Written(goal)
    case Cas(goal, _, _, _) => Written(goal)
    case Write(goal, _) => Written(goal)
    case DropReservation(size, stored) => if stored then size else 0
    case Commit(written, _, _) => written
    case CommitRelease(written, _, now) => written + now
    case ReleaseRest(written, _) => written
    case Open(size) => size
    case UncountFile(size) => size
    case UncountBytes(size) => size
    case _ => 0
  }

  function ReservedShare(pc: Pc): int {
    match pc
    case Write(_, size) => size
    case CountFile(size) => size
    case CountBytes(size) => size
    case DropReservation(size, _) => size
    case Commit(_, size, _) => size
    case CommitRelease(_, size, _) => size
    case ReleaseRest(_, rest) => rest
    case _ => 0
  }

  function FileShare(pc: Pc): int {
    match pc
    case Idle => 0
    case LoadUsage(goal, _) => if goal.Whole? then 0 else 1
    case LoadReserved(goal, _, _) => if goal.Whole? then 0 else 1
    case Cas(goal, _, _, _) => if goal.Whole? then 0 else 1
    case Write(goal, _) => if goal.Whole? then 0 else 1
    case CountFile(_) => 0
    case DropReservation(_, stored) => if stored then 1 else 0
    case UncountBytes(_) => 0
    case _ => 1
  }

  /** Bytes that are counted both as used and as reserved. */
  function Doubled(pc: Pc): int {
    match pc
    case DropReservation(size, stored) => if stored then size else 0
    case CommitRelease(_, _, now) => now
    case _ => 0
  }

  /** The most bytes the worker's file can have on disk, also half-way through a write. */
  function OnDisk(pc: Pc): int {
    match pc
    case Write(goal, size) => Written(goal) + size
    case CountFile(size) => size
    case CountBytes(size) => size
    case Commit(written, _, now) => written + now
    case UncountFile(_) => 0
    case UncountBytes(_) => 0
    case _ => UsageShare(pc)
  }

  predicate WellFormed(pc: Pc) {
    pc.Commit? || pc.CommitRelease? ==> 0 < pc.now <= pc.size
  }

  // A sum over workers for each of these shares.
  ghost const USED := (pc: Pc) => UsageShare(pc)
  ghost const RESERVED := (pc: Pc) => ReservedShare(pc)
  ghost const FILES := (pc: Pc) => FileShare(pc)
  ghost const DOUBLED := (pc: Pc) => Doubled(pc)
  ghost const ON_DISK := (pc: Pc) => OnDisk(pc)

  ghost predicate Accounted(s: State) {
    && s.usage == Sum(s.workers, USED)
    && s.reserved == Sum(s.workers, RESERVED)
    && s.files == Sum(s.workers, FILES)
    && !s.clamped
    && forall i :: 0 <= i < |s.workers| ==> WellFormed(s.workers[i])
  }

  /** Used plus reserved bytes, counting bytes in the middle of a commit once. */
  ghost function Claimed(s: State): int {
    s.usage + s.reserved - Sum(s.workers, DOUBLED)
  }

  /** A worker's own share is inside each counter, so no decrement passes zero. */
  lemma OwnShare(s: State, w: nat)
    requires Accounted(s) && w < |s.workers|
    ensures UsageShare(s.workers[w]) <= s.usage
    ensures ReservedShare(s.workers[w]) <= s.reserved
    ensures FileShare(s.workers[w]) <= s.files
  {
    var pc := s.workers[w];
    SumBounds(s.workers, USED);
    SumBounds(s.workers, RESERVED);
    SumBounds(s.workers, FILES);
    assert USED(pc) <= s.usage && RESERVED(pc) <= s.reserved && FILES(pc) <= s.files;
  }

  /** The counters absorb exactly what worker `w` gains or gives back by moving to `pc`. */
  predicate Absorbs(s: State, s': State, w: nat, pc: Pc)
    requires w < |s.workers|
  {
    var was := s.workers[w];
    && s'.workers == s.workers[w := pc] && WellFormed(pc)
    && s'.max == s.max && s'.enabled == s.enabled && s'.clamped == s.clamped
    && s'.usage == s.usage - UsageShare(was) + UsageShare(pc)
    && s'.reserved == s.reserved - ReservedShare(was) + ReservedShare(pc)
    && s'.files == s.files - FileShare(was) + FileShare(pc)
  }

  predicate Owns(s: State, w: nat)
    requires w < |s.workers|
  {
    var pc := s.workers[w];
    WellFormed(pc) && UsageShare(pc) <= s.usage && ReservedShare(pc) <= s.reserved && FileShare(pc) <= s.files
  }

  /** What a worker claims of the capacity: used plus reserved, overlapping bytes once. */
  function Claim(pc: Pc): int {
    UsageShare(pc) + ReservedShare(pc) - Doubled(pc)
  }

  lemma ReserveStepAbsorbs(s: State, w: nat)
    requires w < |s.workers| && Owns(s, w) && Reserving(s.workers[w])
    ensures var s' := ReserveStep(s, w); var pc := s.workers[w];
      && Absorbs(s, s', w, s'.workers[w])
      && Claim(s'.workers[w]) == Claim(pc) + if CasSucceeds(s, pc) then pc.size else 0
  {}

  lemma WholeStepAbsorbs(s: State, w: nat)
    requires w < |s.workers| && Owns(s, w) && CountingWhole(s.workers[w])
    ensures var s' := WholeStep(s, w);
      Absorbs(s, s', w, s'.workers[w]) && Claim(s'.workers[w]) <= Claim(s.workers[w])
  {}

  lemma ChunkStepAbsorbs(s: State, w: nat, outcome: Outcome)
    requires w < |s.workers| && Owns(s, w) && CountingChunk(s.workers[w])
    ensures var s' := ChunkStep(s, w, outcome);
      Absorbs(s, s', w, s'.workers[w]) && Claim(s'.workers[w]) <= Claim(s.workers[w])
  {}

  lemma LeaveStepAbsorbs(s: State, w: nat)
    requires w < |s.workers| && Owns(s, w) && Leaving(s.workers[w])
    ensures var s' := LeaveStep(s, w);
      Absorbs(s, s', w, s'.workers[w]) && Claim(s'.workers[w]) <= Claim(s.workers[w])
  {}

  lemma StartStepAbsorbs(s: State, w: nat, e: Event)
    requires w < |s.workers| && Owns(s, w) && s.workers[w].Idle?
    ensures var s' := StartStep(s, w, e);
      Absorbs(s, s', w, s'.workers[w]) && Claim(s'.workers[w]) <= Claim(s.workers[w])
  {}

  lemma ReadStepAbsorbs(s: State, w: nat, e: Event)
    requires w < |s.workers| && Owns(s, w) && s.workers[w].Streaming?
    ensures var s' := ReadStep(s, w, e);
      Absorbs(s, s', w, s'.workers[w]) && Claim(s'.workers[w]) <= Claim(s.workers[w])
  {}

  lemma WriteStepAbsorbs(s: State, w: nat, e: Event)
    requires w < |s.workers| && Owns(s, w) && s.workers[w].Write?
    ensures var s' := WriteStep(s, w, e);
      Absorbs(s, s', w, s'.workers[w]) && Claim(s'.workers[w]) <= Claim(s.workers[w])
  {}

  lemma FileStepAbsorbs(s: State, w: nat, e: Event)
    requires w < |s.workers| && Owns(s, w)
    requires var pc := s.workers[w]; pc.Idle? || pc.Streaming? || pc.Write?
    ensures var s' := FileStep(s, w, e);
      Absorbs(s, s', w, s'.workers[w]) && Claim(s'.workers[w]) <= Claim(s.workers[w])
  {
    if s.workers[w].Idle? { StartStepAbsorbs(s, w, e); }
    else if s.workers[w].Streaming? { ReadStepAbsorbs(s, w, e); }
    else { WriteStepAbsorbs(s, w, e); }
  }

  /** Only a successful compare-and-swap raises a worker's claim, and then by its size. */
  lemma StepAbsorbs(s: State, e: Event)
    requires e.worker < |s.workers| && Owns(s, e.worker)
    ensures var s' := Step(s, e); var w := e.worker;
      && Absorbs(s, s', w, s'.workers[w])
      && (if CasSucceeds(s, s.workers[w]) then Claim(s'.workers[w]) == Claim(s.workers[w]) + s.workers[w].size
          else Claim(s'.workers[w]) <= Claim(s.workers[w]))
  {
    var w := e.worker;
    var pc := s.workers[w];
    if Reserving(pc) { ReserveStepAbsorbs(s, w); }
    else if CountingWhole(pc) { WholeStepAbsorbs(s, w); }
    else if CountingChunk(pc) { ChunkStepAbsorbs(s, w, e.outcome); }
    else if Leaving(pc) { LeaveStepAbsorbs(s, w); }
    else { FileStepAbsorbs(s, w, e); }
  }

  /** The claimed total moves with the moving worker's claim. */
  lemma StepAccounted(s: State, e: Event)
    requires Accounted(s) && e.worker < |s.workers|
    ensures var s' := Step(s, e); var w := e.worker;
      && Accounted(s') && |s'.workers| == |s.workers| && s'.max == s.max
      && (if CasSucceeds(s, s.workers[w]) then Claimed(s') == Claimed(s) + s.workers[w].size
          else Claimed(s') <= Claimed(s))
  {
    var w := e.worker;
    var s' := Step(s, e);
    OwnShare(s, w);
    StepAbsorbs(s, e);
    var pc := s'.workers[w];
    SumUpdate(s.workers, w, pc, USED);
    SumUpdate(s.workers, w, pc, RESERVED);
    SumUpdate(s.workers, w, pc, FILES);
    SumUpdate(s.workers, w, pc, DOUBLED);
  }

  /** Accounting holds after every finite interleaving, whatever the loads see. */
  lemma {:induction false} RunAccounted(s: State, events: seq<Event>)
    requires Initial(s)
    ensures Accounted(RunAll(s, events)) && RunAll(s, events).max == s.max
  {
    if events == [] {
      SumZero(s.workers, USED);
      SumZero(s.workers, RESERVED);
      SumZero(s.workers, FILES);
    } else {
      RunAccounted(s, events[..|events| - 1]);
      var r := RunAll(s, events[..|events| - 1]);
      var e := events[|events| - 1];
      if e.worker < |r.workers| { StepAccounted(r, e); }
    }
  }

  /**
   In every reachable state the counters are exactly the sums of what the workers own, and no
   counter was ever clamped back to zero. So when every body is closed, all three are zero.
   */
  lemma CountersExact(s: State, events: seq<Event>)
    requires Initial(s)
    ensures var r := RunAll(s, events);
      && r.usage == Sum(r.workers, USED) && r.reserved == Sum(r.workers, RESERVED)
      && r.files == Sum(r.workers, FILES) && !r.clamped
      && ((forall i :: 0 <= i < |r.workers| ==> r.workers[i].Idle?) ==>
            r.usage == 0 && r.reserved == 0 && r.files == 0)
      && ((forall i :: 0 <= i < |r.workers| ==> r.workers[i].Idle? || r.workers[i].Open?) ==> r.reserved == 0)
  {
    var r := RunAll(s, events);
    RunAccounted(s, events);
    if forall i :: 0 <= i < |r.workers| ==> r.workers[i].Idle? || r.workers[i].Open? {
      SumZero(r.workers, RESERVED);
    }
    if forall i :: 0 <= i < |r.workers| ==> r.workers[i].Idle? {
      SumZero(r.workers, USED);
      SumZero(r.workers, FILES);
    }
  }

  // ----- the capacity bound

  /** Usage has not grown past what the reservation loop loaded. */
  predicate FreshCas(s: State, e: Event) {
    e.worker < |s.workers| && CasSucceeds(s, s.workers[e.worker]) ==> s.usage <= s.workers[e.worker].usage
  }

  ghost predicate FreshRun(s: State, events: seq<Event>)
  {
    events != [] ==>
      && FreshRun(s, events[..|events| - 1])
      && FreshCas(RunAll(s, events[..|events| - 1]), events[|events| - 1])
  }

  /**
   A successful compare-and-swap keeps the bound exactly when the usage that arrived since the
   load, less what is double-counted, fits the slack its own check left.
   */
  lemma CasExact(s: State, e: Event)
    requires Accounted(s) && e.worker < |s.workers| && CasSucceeds(s, s.workers[e.worker])
    ensures var pc := s.workers[e.worker];
      Claimed(Step(s, e)) <= s.max <==>
      (s.usage - pc.usage) - Sum(s.workers, DOUBLED) <= s.max - (pc.usage + pc.reserved + pc.size)
  {
    StepAccounted(s, e);
  }

  /** The usage that arrived since the load fits the slack of the check. */
  ghost predicate WithinSlack(s: State, e: Event) {
    e.worker < |s.workers| && CasSucceeds(s, s.workers[e.worker]) ==>
      var pc := s.workers[e.worker];
      (s.usage - pc.usage) - Sum(s.workers, DOUBLED) <= s.max - (pc.usage + pc.reserved + pc.size)
  }

  ghost predicate SlackRun(s: State, events: seq<Event>) {
    events != [] ==>
      && SlackRun(s, events[..|events| - 1])
      && WithinSlack(RunAll(s, events[..|events| - 1]), events[|events| - 1])
  }

  /** The bound holds now and held after every earlier step. */
  ghost predicate BoundedThroughout(s: State, events: seq<Event>) {
    Claimed(RunAll(s, events)) <= s.max && (events != [] ==> BoundedThroughout(s, events[..|events| - 1]))
  }

  /** The maximum holds throughout a run if and only if every granted reservation was within its slack. */
  lemma {:induction false} BoundedIff(s: State, events: seq<Event>)
    requires Initial(s)
    ensures BoundedThroughout(s, events) <==> SlackRun(s, events)
  {
    if events == [] {
      SumZero(s.workers, DOUBLED);
    } else {
      var init, e := events[..|events| - 1], events[|events| - 1];
      var r := RunAll(s, init);
      BoundedIff(s, init);
      RunAccounted(s, init);
      if e.worker < |r.workers| {
        StepAccounted(r, e);
        if CasSucceeds(r, r.workers[e.worker]) { CasExact(r, e); }
      }
    }
  }

  lemma {:induction false} RunBounded(s: State, events: seq<Event>)
    requires Initial(s) && FreshRun(s, events)
    ensures Claimed(RunAll(s, events)) <= s.max
  {
    if events == [] {
      SumZero(s.workers, DOUBLED);
    } else {
      var r := RunAll(s, events[..|events| - 1]);
      var e := events[|events| - 1];
      RunBounded(s, events[..|events| - 1]);
      RunAccounted(s, events[..|events| - 1]);
      if e.worker < |r.workers| {
        StepAccounted(r, e);
        if CasSucceeds(r, r.workers[e.worker]) {
          SumBounds(r.workers, DOUBLED);
          CasExact(r, e);
        }
      }
    }
  }

  ghost const CLAIM := (pc: Pc) => Claim(pc)

  lemma OnDiskWithinClaim(pc: Pc)
    requires WellFormed(pc)
    ensures 0 <= OnDisk(pc) <= Claim(pc)
  {}

  lemma {:induction false} SumOfClaims(ws: seq<Pc>)
    ensures Sum(ws, CLAIM) == Sum(ws, USED) + Sum(ws, RESERVED) - Sum(ws, DOUBLED)
  {
    if ws != [] { SumOfClaims(ws[..|ws| - 1]); }
  }

  /**
   Capacity. In every run whose successful compare-and-swaps are fresh, used plus reserved bytes
   (a commit in flight counted once) stay within the maximum, and so do the bytes that all cache
   files together have on disk, even half-way through a write.
   */
  lemma CapacityBound(s: State, events: seq<Event>)
    requires Initial(s) && FreshRun(s, events)
    ensures var r := RunAll(s, events);
      && r.usage + r.reserved - Sum(r.workers, DOUBLED) <= s.max
      && Sum(r.workers, ON_DISK) <= s.max
  {
    var r := RunAll(s, events);
    RunBounded(s, events);
    RunAccounted(s, events);
    SumOfClaims(r.workers);
    forall pc <- r.workers ensures ON_DISK(pc) <= CLAIM(pc) { OnDiskWithinClaim(pc); }
    SumMonotone(r.workers, ON_DISK, CLAIM);
  }

  // ----- what is given to the cache with room for it is stored

  lemma {:induction false} RunOn(s: State, first: seq<Event>, more: seq<Event>)
    ensures RunAll(s, first + more) == RunAll(RunAll(s, first), more)
  {
    if more == [] {
      assert first + more == first;
    } else {
      var init := more[..|more| - 1];
      assert (first + more)[..|first + more| - 1] == first + init;
      RunOn(s, first, init);
    }
  }

  /** Some run leads from one state to the other. */
  ghost predicate Reaches(s: State, r: State) {
    exists events :: RunAll(s, events) == r
  }

  lemma ReachesOn(s: State, r: State, t: State)
    requires Reaches(s, r) && Reaches(r, t)
    ensures Reaches(s, t)
  {
    var first :| RunAll(s, first) == r;
    var more :| RunAll(r, more) == t;
    RunOn(s, first, more);
  }

  lemma StepReaches(s: State, e: Event)
    ensures Reaches(s, Step(s, e))
  {
    assert [e][..0] == [] && RunAll(s, []) == s;
    assert RunAll(s, [e]) == Step(s, e);
  }

  /** From a state that is reached, one more step of worker `w`. */
  lemma StepOn(s: State, r: State, w: nat, n: nat, outcome: Outcome) returns (t: State)
    requires Reaches(s, r)
    ensures t == Step(r, Event(w, false, n, outcome)) && Reaches(s, t)
  {
    t := Step(r, Event(w, false, n, outcome));
    StepReaches(r, Event(w, false, n, outcome));
    ReachesOn(s, r, t);
  }

  lemma StaysReached(s: State)
    ensures Reaches(s, s)
  {
    assert RunAll(s, []) == s;
  }

  /** Room for `n` more bytes, and no counter below zero. */
  predicate Room(s: State, n: nat) {
    s.enabled && 0 <= s.reserved && s.usage + s.reserved + n <= s.max
  }

  /** An undisturbed reservation with room is granted. */
  lemma ReservationGranted(s: State, w: nat, goal: Goal, n: nat)
    requires w < |s.workers| && s.workers[w] == LoadUsage(goal, n) && Room(s, n)
    ensures Reaches(s, To(s.(reserved := s.reserved + n), w, Write(goal, n)))
  {
    StaysReached(s);
    var r := StepOn(s, s, w, n, Continue);
    assert r == To(s, w, LoadReserved(goal, n, s.usage));
    r := StepOn(s, r, w, n, Continue);
    assert r == To(s, w, Cas(goal, n, s.usage, s.reserved));
    r := StepOn(s, r, w, n, Continue);
    assert r == To(s.(reserved := s.reserved + n), w, Write(goal, n));
  }

  /** A chunk that is written in full is counted and its reservation given back. */
  lemma ChunkCounted(s: State, w: nat, written: nat, n: nat)
    requires w < |s.workers| && s.workers[w] == Write(Chunk(written), n) && 0 < n <= s.reserved
    ensures Reaches(s, To(s.(reserved := s.reserved - n, usage := s.usage + n), w, Streaming(written + n)))
  {
    StaysReached(s);
    var r := StepOn(s, s, w, n, Continue);
    assert r == To(s, w, Commit(written, n, n));
    r := StepOn(s, r, w, n, Continue);
    assert r == To(s.(usage := s.usage + n), w, CommitRelease(written, n, n));
    r := StepOn(s, r, w, n, Continue);
    assert r == To(s.(reserved := s.reserved - n, usage := s.usage + n), w, Streaming(written + n));
  }

  /** A whole body that is written is counted and its reservation given back. */
  lemma WholeCounted(s: State, w: nat, n: nat)
    requires w < |s.workers| && s.workers[w] == Write(Whole, n) && 0 < n <= s.reserved
    ensures Reaches(s, To(s.(reserved := s.reserved - n, usage := s.usage + n, files := s.files + 1), w, Open(n)))
  {
    StaysReached(s);
    var r := StepOn(s, s, w, n, Continue);
    assert r == To(s, w, CountFile(n));
    r := StepOn(s, r, w, n, Continue);
    assert r == To(s.(files := s.files + 1), w, CountBytes(n));
    r := StepOn(s, r, w, n, Continue);
    assert r == To(s.(files := s.files + 1, usage := s.usage + n), w, DropReservation(n, true));
    r := StepOn(s, r, w, n, Continue);
    assert r == To(s.(reserved := s.reserved - n, usage := s.usage + n, files := s.files + 1), w, Open(n));
  }

  /** A reservation and what follows it, put together. */
  lemma ReservedThen(s: State, w: nat, goal: Goal, n: nat, t: State)
    requires w < |s.workers| && Room(s, n) && Reaches(s, To(s, w, LoadUsage(goal, n)))
    requires Reaches(To(s.(reserved := s.reserved + n), w, Write(goal, n)), t)
    ensures Reaches(s, t)
  {
    var r, granted := To(s, w, LoadUsage(goal, n)), To(s.(reserved := s.reserved + n), w, Write(goal, n));
    ReservationGranted(r, w, goal, n);
    assert To(r.(reserved := r.reserved + n), w, Write(goal, n)) == granted;
    ReachesOn(s, r, granted);
    ReachesOn(s, granted, t);
  }

  /** One undisturbed chunk: its bytes are counted, the reservation is back, the stream goes on. */
  lemma ChunkStored(s: State, w: nat, n: nat)
    requires w < |s.workers| && s.workers[w].Streaming? && n > 0 && Room(s, n)
    ensures Reaches(s, To(s.(usage := s.usage + n), w, Streaming(s.workers[w].written + n)))
  {
    var written := s.workers[w].written;
    var t := To(s.(usage := s.usage + n), w, Streaming(written + n));
    StepReaches(s, Event(w, false, n, Continue));
    assert Step(s, Event(w, false, n, Continue)) == To(s, w, LoadUsage(Chunk(written), n));
    var granted := To(s.(reserved := s.reserved + n), w, Write(Chunk(written), n));
    ChunkCounted(granted, w, written, n);
    assert To(granted.(reserved := granted.reserved - n, usage := granted.usage + n), w, Streaming(written + n)) == t;
    ReservedThen(s, w, Chunk(written), n, t);
  }

  /** A whole body that fits ends open, counted once, with its reservation back. */
  lemma WholeStored(s: State, w: nat, n: nat)
    requires w < |s.workers| && s.workers[w].Idle? && n > 0 && Room(s, n)
    ensures Reaches(s, To(s.(usage := s.usage + n, files := s.files + 1), w, Open(n)))
  {
    var t := To(s.(usage := s.usage + n, files := s.files + 1), w, Open(n));
    StepReaches(s, Event(w, false, n, Continue));
    assert Step(s, Event(w, false, n, Continue)) == To(s, w, LoadUsage(Whole, n));
    var granted := To(s.(reserved := s.reserved + n), w, Write(Whole, n));
    WholeCounted(granted, w, n);
    assert To(granted.(reserved := granted.reserved - n, usage := granted.usage + n, files := granted.files + 1), w, Open(n)) == t;
    ReservedThen(s, w, Whole, n, t);
  }

  function Bytes(chunks: seq<nat>): nat {
    if chunks == [] then 0 else chunks[0] + Bytes(chunks[1..])
  }

  lemma StreamFinished(s: State, w: nat)
    requires w < |s.workers| && s.workers[w].Streaming?
    ensures Reaches(s, To(s, w, Open(s.workers[w].written)))
  {
    StepReaches(s, Event(w, true, 0, Finish));
    StreamEnds(s, Event(w, true, 0, Finish));
    assert Step(s, Event(w, true, 0, Finish)) == To(s, w, Open(s.workers[w].written));
  }

  /** The state with `n` more bytes in use and worker `w` at `pc`. */
  function Grown(s: State, w: nat, n: nat, pc: Pc): State
    requires w < |s.workers|
  {
    To(s.(usage := s.usage + n), w, pc)
  }

  lemma GrownTwice(s: State, w: nat, n: nat, pc: Pc, m: nat, pc': Pc)
    requires w < |s.workers|
    ensures Grown(Grown(s, w, n, pc), w, m, pc') == Grown(s, w, n + m, pc')
  {
  }

  lemma ChunkThen(s: State, w: nat, written: nat, n: nat, t: State)
    requires w < |s.workers| && s.workers[w] == Streaming(written) && n > 0 && Room(s, n)
    requires Reaches(Grown(s, w, n, Streaming(written + n)), t)
    ensures Reaches(s, t)
  {
    ChunkStored(s, w, n);
    ReachesOn(s, Grown(s, w, n, Streaming(written + n)), t);
  }

  /** A streamed body of any chunks that fit ends open, with exactly its bytes counted. */
  lemma {:induction false} StreamStored(s: State, w: nat, written: nat, chunks: seq<nat>)
    requires w < |s.workers| && s.workers[w] == Streaming(written) && Room(s, Bytes(chunks))
    requires forall i :: 0 <= i < |chunks| ==> chunks[i] > 0
    ensures Reaches(s, Grown(s, w, Bytes(chunks), Open(written + Bytes(chunks))))
    decreases chunks
  {
    if chunks == [] {
      StreamFinished(s, w);
      assert Grown(s, w, 0, Open(written)) == To(s, w, Open(written));
    } else {
      StreamContinued(s, w, written, chunks);
    }
  }

  lemma {:induction false} StreamContinued(s: State, w: nat, written: nat, chunks: seq<nat>)
    requires w < |s.workers| && s.workers[w] == Streaming(written) && Room(s, Bytes(chunks)) && chunks != []
    requires forall i :: 0 <= i < |chunks| ==> chunks[i] > 0
    ensures Reaches(s, Grown(s, w, Bytes(chunks), Open(written + Bytes(chunks))))
    decreases chunks, 0
  {
    var n, rest := chunks[0], Bytes(chunks[1..]);
    var mid := Grown(s, w, n, Streaming(written + n));
    GrownTwice(s, w, n, Streaming(written + n), rest, Open(written + n + rest));
    StreamStored(mid, w, written + n, chunks[1..]);
    ChunkThen(s, w, written, n, Grown(mid, w, rest, Open(written + n + rest)));
  }

  // ----- the bound needs fresh loads

  /** Extends a run by one successful step of worker `w`. */
  lemma Extend(s: State, events: seq<Event>, w: nat, n: nat) returns (longer: seq<Event>, r: State)
    ensures longer == events + [Event(w, false, n, Continue)]
    ensures r == RunAll(s, longer) == Step(RunAll(s, events), Event(w, false, n, Continue))
  {
    longer := events + [Event(w, false, n, Continue)];
    assert longer[..|longer| - 1] == events;
    r := RunAll(s, longer);
  }

  /**
   The compare-and-swap looks only at the reserved counter, so with interleaved loads the bound
   fails: two 10-byte bodies are admitted under a maximum of 10.
   */
  lemma StaleLoadsBreakTheBound() returns (s: State, events: seq<Event>)
    ensures s == State(0, 0, 0, 10, true, [Idle, Idle], false) && Initial(s)
    ensures RunAll(s, events).usage == 10 && RunAll(s, events).reserved == 10
    ensures RunAll(s, events).workers == [Write(Whole, 10), Open(10)]
    ensures Claimed(RunAll(s, events)) == 20
  {
    s, events := State(0, 0, 0, 10, true, [Idle, Idle], false), [];
    var r;
    // worker 0 loads usage 0 and is then delayed
    events, r := Extend(s, events, 0, 10);
    events, r := Extend(s, events, 0, 0);
    assert r == s.(workers := [LoadReserved(Whole, 10, 0), Idle]);
    // worker 1 reserves 10 bytes ...
    events, r := Extend(s, events, 1, 10);
    events, r := Extend(s, events, 1, 0);
    events, r := Extend(s, events, 1, 0);
    events, r := Extend(s, events, 1, 0);
    assert r == s.(reserved := 10, workers := [LoadReserved(Whole, 10, 0), Write(Whole, 10)]);
    // ... writes and counts them, and drops the reservation
    events, r := Extend(s, events, 1, 0);
    events, r := Extend(s, events, 1, 0);
    events, r := Extend(s, events, 1, 0);
    events, r := Extend(s, events, 1, 0);
    assert r == s.(usage := 10, files := 1, workers := [LoadReserved(Whole, 10, 0), Open(10)]);
    // worker 0 sees no reservation and passes its check against the old usage
    events, r := Extend(s, events, 0, 0);
    events, r := Extend(s, events, 0, 0);
    assert r == s.(usage := 10, files := 1, reserved := 10, workers := [Write(Whole, 10), Open(10)]);
    SumZero(r.workers, DOUBLED);
  }
}
