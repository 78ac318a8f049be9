/**
 Management of a channel that holds several keys: status, disabling time and reason live in maps
 keyed by the position of a key, so they must follow the keys when positions shift.
 */
module MultiKey {
  import opened Basics

  const ENABLED := 1
  const MANUALLY_DISABLED := 2
  const AUTO_DISABLED := 3

  /** The three maps of a channel; a missing status means enabled. */
  datatype Tables = Tables(status: map<int, int>, time: map<int, int>, reason: map<int, string>)

  const NO_TABLES := Tables(map[], map[], map[])

  /** Everything recorded about one key, with no position in it. */
  datatype Slot = Slot(key: string, status: int, time: Option<int>, reason: Option<string>)

  /** What the status listing reports for a key: time and reason only when it is not enabled. */
  datatype Entry = Entry(key: string, status: int, time: int, reason: string)

  function Find<V>(m: map<int, V>, i: int): Option<V> { if i in m then Some(m[i]) else None }

  function OrElse<V>(o: Option<V>, v: V): V { if o.Some? then o.value else v }

  function SlotAt(keys: seq<string>, t: Tables, i: nat): Slot
    requires i < |keys|
  {
    Slot(keys[i], OrElse(Find(t.status, i), ENABLED), Find(t.time, i), Find(t.reason, i))
  }

  function SlotsOf(keys: seq<string>, t: Tables): seq<Slot> {
    seq(|keys|, i requires 0 <= i < |keys| => SlotAt(keys, t, i))
  }

  function Show(s: Slot): Entry {
    if s.status == ENABLED then Entry(s.key, ENABLED, 0, "")
    else Entry(s.key, s.status, OrElse(s.time, 0), OrElse(s.reason, ""))
  }

  function Listing(slots: seq<Slot>): seq<Entry> {
    seq(|slots|, i requires 0 <= i < |slots| => Show(slots[i]))
  }

  predicate InRange(t: Tables, n: nat) {
    && (forall i <- t.status :: 0 <= i < n) && (forall i <- t.time :: 0 <= i < n) && (forall i <- t.reason :: 0 <= i < n)
  }

  /** Every key enabled, with no record. */
  function Fresh(keys: seq<string>): seq<Slot> {
    seq(|keys|, i requires 0 <= i < |keys| => Slot(keys[i], ENABLED, None, None))
  }

  // ----- deletion on slots

  function Without(slots: seq<Slot>, k: nat): seq<Slot>
    requires k < |slots|
  {
    slots[..k] + slots[k + 1..]
  }

  /** The slots that are not automatically disabled, in order. */
  function Survivors(slots: seq<Slot>): seq<Slot> {
    if slots == [] then [] else
    var init, last := Survivors(slots[..|slots| - 1]), slots[|slots| - 1];
    if last.status == AUTO_DISABLED then init else init + [last]
  }

  /** An enabled key loses a leftover time and reason. */
  function Tidy(s: Slot): Slot {
    if s.status == ENABLED then s.(time := None, reason := None) else s
  }

  function TidyAll(slots: seq<Slot>): seq<Slot> {
    seq(|slots|, i requires 0 <= i < |slots| => Tidy(slots[i]))
  }

  /** An enabled key that still carries a time or a reason from an earlier disabling. */
  predicate Leftover(s: Slot) { s.status == ENABLED && (s.time.Some? || s.reason.Some?) }

  lemma {:induction false} SurvivorsSplit(xs: seq<Slot>, ys: seq<Slot>)
    ensures Survivors(xs + ys) == Survivors(xs) + Survivors(ys)
  {
    if ys == [] {
      assert xs + ys == xs;
    } else {
      var n := |ys| - 1;
      assert (xs + ys)[..|xs + ys| - 1] == xs + ys[..n];
      SurvivorsSplit(xs, ys[..n]);
    }
  }

  lemma SurvivorsNext(slots: seq<Slot>, k: nat)
    requires k < |slots|
    ensures Survivors(slots[..k + 1]) ==
      if slots[k].status == AUTO_DISABLED then Survivors(slots[..k]) else Survivors(slots[..k]) + [slots[k]]
    ensures slots[k].status != AUTO_DISABLED ==>
      TidyAll(Survivors(slots[..k + 1])) == TidyAll(Survivors(slots[..k])) + [Tidy(slots[k])]
  {
    assert slots[..k + 1][..k] == slots[..k];
  }

  /** Deleting an automatically disabled key first does not change who survives. */
  lemma SurvivorsWithout(slots: seq<Slot>, k: nat)
    requires k < |slots| && slots[k].status == AUTO_DISABLED
    ensures Survivors(Without(slots, k)) == Survivors(slots)
  {
    var xs, ys := slots[..k], slots[k + 1..];
    SurvivorsSplit(xs, ys);
    assert slots == slots[..k + 1] + ys;
    SurvivorsSplit(slots[..k + 1], ys);
    SurvivorsNext(slots, k);
  }

  lemma {:induction false} SurvivorsAll(slots: seq<Slot>)
    requires forall s <- slots :: s.status != AUTO_DISABLED
    ensures Survivors(slots) == slots
  {
    if slots != [] {
      var n := |slots| - 1;
      assert slots == slots[..n] + [slots[n]];
      SurvivorsAll(slots[..n]);
    }
  }

  lemma {:induction false} SurvivorsMember(slots: seq<Slot>, s: Slot)
    ensures s in Survivors(slots) <==> s in slots && s.status != AUTO_DISABLED
  {
    if slots != [] {
      assert slots == slots[..|slots| - 1] + [slots[|slots| - 1]];
      SurvivorsMember(slots[..|slots| - 1], s);
    }
  }

  /** Tidying is invisible in the listing. */
  lemma TidyInvisible(slots: seq<Slot>)
    ensures Listing(TidyAll(slots)) == Listing(slots)
  {
  }

  /** It becomes visible when a key is disabled later, exactly for a key with a leftover. */
  lemma LeftoverResurfaces(s: Slot)
    requires s.status == ENABLED
    ensures Show(Tidy(s).(status := MANUALLY_DISABLED)) == Show(s.(status := MANUALLY_DISABLED)) <==>
      OrElse(s.time, 0) == 0 && OrElse(s.reason, "") == ""
  {
  }

  /** Deleting all at once and one by one leave the same records exactly when no survivor has a leftover. */
  lemma SameRecordsIff(slots: seq<Slot>)
    ensures TidyAll(Survivors(slots)) == Survivors(slots) <==>
      forall i :: 0 <= i < |slots| ==> !Leftover(slots[i])
  {
    var kept := Survivors(slots);
    if TidyAll(kept) == kept {
      forall i | 0 <= i < |slots| ensures !Leftover(slots[i]) {
        SurvivorsMember(slots, slots[i]);
        if slots[i] in kept {
          var j :| 0 <= j < |kept| && kept[j] == slots[i];
          assert TidyAll(kept)[j] == kept[j];
        }
      }
    } else {
      var j :| 0 <= j < |kept| && TidyAll(kept)[j] != kept[j];
      SurvivorsMember(slots, kept[j]);
      assert kept[j] in kept;
      var i :| 0 <= i < |slots| && slots[i] == kept[j];
      assert Leftover(slots[i]);
    }
  }

  // ----- rebuilding the maps

  /** Records a slot at the next position: only a disabled status is stored. */
  function Put(t: Tables, i: int, s: Slot): Tables {
    Tables(if s.status != ENABLED then t.status[i := s.status] else t.status,
           if s.time.Some? then t.time[i := s.time.value] else t.time,
           if s.reason.Some? then t.reason[i := s.reason.value] else t.reason)
  }

  lemma PutAppends(keys: seq<string>, t: Tables, s: Slot)
    requires InRange(t, |keys|)
    ensures InRange(Put(t, |keys|, s), |keys| + 1)
    ensures SlotsOf(keys + [s.key], Put(t, |keys|, s)) == SlotsOf(keys, t) + [s]
  {
    var all, next := keys + [s.key], Put(t, |keys|, s);
    forall i | 0 <= i < |all| ensures SlotAt(all, next, i) == (SlotsOf(keys, t) + [s])[i] {}
  }

  /** The stored row of a multi-key channel. */
  class Channel {
    var keys: seq<string>
    var size: int
    var tables: Tables

    constructor (keys: seq<string>)
      ensures Valid() && Slots() == Fresh(keys)
    {
      this.keys, size, tables := keys, |keys|, NO_TABLES;
    }

    ghost predicate Valid()
      reads this
    {
      size == |keys| && InRange(tables, |keys|)
    }

    ghost function Slots(): seq<Slot>
      reads this
    {
      SlotsOf(keys, tables)
    }

    /** disable_key: an old time or reason is not touched. */
    method DisableKey(k: int) returns (ok: bool)
      requires Valid()
      modifies this`tables
      ensures Valid() && ok == (0 <= k < size)
      ensures Slots() == if ok then old(Slots())[k := old(Slots())[k].(status := MANUALLY_DISABLED)] else old(Slots())
    {
      ok := 0 <= k < size;
      if ok { tables := tables.(status := tables.status[k := MANUALLY_DISABLED]); }
    }

    /** enable_key */
    method EnableKey(k: int) returns (ok: bool)
      requires Valid()
      modifies this`tables
      ensures Valid() && ok == (0 <= k < size)
      ensures Slots() == if ok then old(Slots())[k := Slot(keys[k], ENABLED, None, None)] else old(Slots())
    {
      ok := 0 <= k < size;
      if ok { tables := Tables(tables.status - {k}, tables.time - {k}, tables.reason - {k}); }
    }

    /** The relay reports a key as failing or recovered; recovery keeps the old time and reason. */
    method ReportKey(k: nat, status: int, reason: string, now: int)
      requires Valid() && k < |keys|
      modifies this`tables
      ensures Valid()
      ensures Slots() == old(Slots())[k :=
        if status == ENABLED then old(Slots())[k].(status := ENABLED) else Slot(keys[k], status, Some(now), Some(reason))]
    {
      if status == ENABLED {
        tables := tables.(status := tables.status - {k});
      } else {
        tables := Tables(tables.status[k := status], tables.time[k := now], tables.reason[k := reason]);
      }
    }

    /** The rebuilding loop of delete_key. */
    method AllBut(k: nat) returns (remaining: seq<string>, next: Tables)
      requires Valid() && k < |keys|
      ensures InRange(next, |remaining|) && SlotsOf(remaining, next) == Without(Slots(), k)
    {
      remaining, next := [], NO_TABLES;
      ghost var slots := Slots();
      for i := 0 to |keys|
        invariant InRange(next, |remaining|)
        invariant SlotsOf(remaining, next) == if i <= k then slots[..i] else slots[..k] + slots[k + 1..i]
      {
        if i != k {
          var at := |remaining|;
          PutAppends(remaining, next, slots[i]);
          ghost var put := Put(next, at, slots[i]);
          if i in tables.status && tables.status[i] != ENABLED { next := next.(status := next.status[at := tables.status[i]]); }
          if i in tables.time { next := next.(time := next.time[at := tables.time[i]]); }
          if i in tables.reason { next := next.(reason := next.reason[at := tables.reason[i]]); }
          assert next == put;
          remaining := remaining + [keys[i]];
        }
      }
    }

    /** delete_key: exactly that slot goes, every other key keeps its own record. */
    method DeleteKey(k: int) returns (ok: bool)
      requires Valid()
      modifies this
      ensures Valid() && ok == (0 <= k < old(size) && old(size) > 1)
      ensures Slots() == if ok then Without(old(Slots()), k) else old(Slots())
    {
      if k < 0 || k >= size { return false; }
      var remaining, next := AllBut(k);
      assert |SlotsOf(remaining, next)| == |remaining| && |Slots()| == |keys|;
      if remaining == [] { return false; }
      keys, size, tables := remaining, |remaining|, next;
      ok := true;
    }

    /** The counting and rebuilding loop of delete_disabled_keys. */
    method SplitDisabled() returns (remaining: seq<string>, next: Tables, deleted: nat)
      requires Valid()
      ensures InRange(next, |remaining|) && SlotsOf(remaining, next) == TidyAll(Survivors(Slots()))
      ensures deleted == |keys| - |Survivors(Slots())|
    {
      remaining, next, deleted := [], NO_TABLES, 0;
      ghost var slots := Slots();
      assert slots[..0] == [];
      for i := 0 to |keys|
        invariant InRange(next, |remaining|) && SlotsOf(remaining, next) == TidyAll(Survivors(slots[..i]))
        invariant deleted == i - |Survivors(slots[..i])|
      {
        SurvivorsNext(slots, i);
        var status := OrElse(Find(tables.status, i), ENABLED);
        if status == AUTO_DISABLED {
          deleted := deleted + 1;
        } else {
          PutAppends(remaining, next, Tidy(slots[i]));
          next := CopyRecord(next, |remaining|, i);
          remaining := remaining + [keys[i]];
        }
      }
      assert slots[..|keys|] == slots;
    }

    /** Records a kept key at its new position; an enabled key has nothing to record. */
    method CopyRecord(next: Tables, at: nat, i: nat) returns (next': Tables)
      requires i < |keys|
      ensures next' == Put(next, at, Tidy(SlotAt(keys, tables, i)))
    {
      next' := next;
      var status := OrElse(Find(tables.status, i), ENABLED);
      if status != ENABLED {
        next' := next'.(status := next'.status[at := status]);
        if i in tables.time { next' := next'.(time := next'.time[at := tables.time[i]]); }
        if i in tables.reason { next' := next'.(reason := next'.reason[at := tables.reason[i]]); }
      }
    }

    /**
     delete_disabled_keys. An empty key list is not written to the row, so when every key is
     automatically disabled no key is deleted and all of them come back enabled.
     */
    method DeleteDisabledKeys() returns (ok: bool, deleted: nat)
      requires Valid()
      modifies this
      ensures Valid()
      ensures var kept := Survivors(old(Slots()));
        && deleted == old(|keys|) - |kept| && ok == (deleted > 0)
        && (!ok ==> Slots() == old(Slots()))
        && (ok && kept != [] ==> Slots() == TidyAll(kept))
        && (ok && kept == [] ==> keys == old(keys) && Slots() == Fresh(keys))
    {
      var remaining, next;
      remaining, next, deleted := SplitDisabled();
      if deleted == 0 { return false, 0; }
      assert |SlotsOf(remaining, next)| == |remaining|;
      if remaining != [] { keys := remaining; }
      size, tables := |keys|, next;
      ok := true;
    }

    /** Deleting the automatically disabled keys one by one with delete_key. */
    method DeleteOneByOne()
      requires Valid()
      modifies this
      ensures Valid()
      ensures var kept := Survivors(old(Slots()));
        if kept != [] || old(keys) == [] then Slots() == kept
        else |Slots()| == 1 && Slots()[0].status == AUTO_DISABLED
    {
      var i := 0;
      while i < |keys| && |keys| > 1
        invariant Valid() && i <= |keys| && (old(keys) != [] ==> keys != [])
        invariant Survivors(Slots()) == Survivors(old(Slots()))
        invariant forall j :: 0 <= j < i ==> Slots()[j].status != AUTO_DISABLED
        decreases |keys| - i
      {
        if OrElse(Find(tables.status, i), ENABLED) == AUTO_DISABLED {
          SurvivorsWithout(Slots(), i);
          var ok := DeleteKey(i);
        } else {
          i := i + 1;
        }
      }
      OneByOneEnd(Slots(), i);
    }
  }

  lemma OneByOneEnd(slots: seq<Slot>, i: nat)
    requires i <= |slots| && (i == |slots| || |slots| <= 1)
    requires forall j :: 0 <= j < i ==> slots[j].status != AUTO_DISABLED
    ensures if Survivors(slots) != [] || slots == [] then Survivors(slots) == slots
            else |slots| == 1 && slots[0].status == AUTO_DISABLED
  {
    if i == |slots| {
      SurvivorsAll(slots);
    } else {
      assert slots[..0] == [] && slots == [slots[0]];
    }
  }

  /**
   The two ways of deleting, run on two channels in the same state, agree on every key, status,
   time and reason that the listing shows, whenever a key survives.
   */
  method BothWays(a: Channel, b: Channel)
    requires a != b && a.Valid() && b.Valid() && a.Slots() == b.Slots()
    modifies a, b
    ensures a.Valid() && b.Valid()
    ensures Listing(a.Slots()) == Listing(b.Slots()) <==> Survivors(old(a.Slots())) != [] || old(a.keys) == []
    ensures Survivors(old(a.Slots())) == [] && old(a.keys) != [] ==>
      a.keys == old(a.keys) && (forall i :: 0 <= i < |a.Slots()| ==> a.Slots()[i].status == ENABLED) && |b.keys| == 1
  {
    ghost var slots := a.Slots();
    var ok, deleted := a.DeleteDisabledKeys();
    b.DeleteOneByOne();
    TidyInvisible(Survivors(slots));
    if |Survivors(slots)| == |slots| { FullLength(slots); }
    if Survivors(slots) == [] && slots != [] {
      assert Listing(a.Slots())[0].status == ENABLED && Listing(b.Slots())[0].status == AUTO_DISABLED;
    }
  }

  lemma {:induction false} SurvivorsLength(slots: seq<Slot>)
    ensures |Survivors(slots)| <= |slots|
  {
    if slots != [] { SurvivorsLength(slots[..|slots| - 1]); }
  }

  lemma {:induction false} FullLength(slots: seq<Slot>)
    requires |Survivors(slots)| == |slots|
    ensures Survivors(slots) == slots
  {
    if slots != [] {
      var n := |slots| - 1;
      SurvivorsLength(slots[..n]);
      FullLength(slots[..n]);
      assert slots == slots[..n] + [slots[n]];
    }
  }
}
