/**
 The in-memory sliding-window rate limiter, and the specification it has to agree with: the
 full history of accepted requests that were not rolled back.
 */
module RateLimiter {

  datatype Key = Key(name: string)

  datatype Entry = Entry(time: int, token: nat)

  /** The limit and the window length that the callers use for each key. */
  datatype Policy = Policy(limit: Key -> int, duration: Key -> int)

  // ----- the full-history specification

  /** Every accepted request per key, oldest first, without those rolled back. */
  datatype History = History(accepted: map<Key, seq<Entry>>, tokens: nat) {
    function Of(key: Key): seq<Entry> {
      if key in accepted then accepted[key] else []
    }
  }

  predicate Expired(e: Entry, now: int, duration: int) {
    now - e.time >= duration
  }

  function Live(es: seq<Entry>, now: int, duration: int): seq<Entry> {
    if es == [] then []
    else (if Expired(es[0], now, duration) then [] else [es[0]]) + Live(es[1..], now, duration)
  }

  predicate Accepts(h: History, p: Policy, key: Key, now: int) {
    p.limit(key) <= 0 || |Live(h.Of(key), now, p.duration(key))| < p.limit(key)
  }

  /** An accepted request under a positive limit is recorded with the next token. */
  function Request(h: History, p: Policy, key: Key, now: int): History {
    if p.limit(key) <= 0 || !Accepts(h, p, key, now) then h
    else History(h.accepted[key := h.Of(key) + [Entry(now, h.tokens + 1)]], h.tokens + 1)
  }

  function WithoutToken(es: seq<Entry>, token: nat): seq<Entry> {
    if es == [] then []
    else (if es[0].token == token then [] else [es[0]]) + WithoutToken(es[1..], token)
  }

  function RolledBack(h: History, key: Key, token: nat): History {
    if key in h.accepted then h.(accepted := h.accepted[key := WithoutToken(h.accepted[key], token)]) else h
  }

  // ----- no window is ever overfull

  /** How many entries fall in the window of the given length that opens at `from`. */
  function InWindow(es: seq<Entry>, from: int, length: int): nat {
    if es == [] then 0 else (if from <= es[0].time < from + length then 1 else 0) + InWindow(es[1..], from, length)
  }

  /** Names the window that a proof step looks at. */
  ghost predicate Opens(key: Key, from: int) { true }

  ghost predicate WindowBounded(h: History, p: Policy, key: Key, from: int) {
    0 < p.limit(key) ==> InWindow(h.Of(key), from, p.duration(key)) <= p.limit(key)
  }

  /** Every window of the key's length holds at most the key's limit of accepted requests. */
  ghost predicate WindowsBounded(h: History, p: Policy) {
    forall key, from {:trigger Opens(key, from)} :: Opens(key, from) ==> WindowBounded(h, p, key, from)
  }

  lemma {:induction false} WindowAppend(es: seq<Entry>, e: Entry, from: int, length: int)
    ensures InWindow(es + [e], from, length)
         == InWindow(es, from, length) + if from <= e.time < from + length then 1 else 0
  {
    if es != [] {
      assert (es + [e])[1..] == es[1..] + [e];
      WindowAppend(es[1..], e, from, length);
    }
  }

  /** A window that reaches past `now` sees only live entries. */
  lemma {:induction false} WindowWithinLive(es: seq<Entry>, from: int, now: int, length: int)
    requires now < from + length
    ensures InWindow(es, from, length) <= |Live(es, now, length)|
  {
    if es != [] { WindowWithinLive(es[1..], from, now, length); }
  }

  lemma {:induction false} WindowWithoutToken(es: seq<Entry>, token: nat, from: int, length: int)
    ensures InWindow(WithoutToken(es, token), from, length) <= InWindow(es, from, length)
  {
    if es != [] {
      var rest := WithoutToken(es[1..], token);
      WindowWithoutToken(es[1..], token, from, length);
      if es[0].token != token {
        assert ([es[0]] + rest)[1..] == rest;
      } else {
        assert [] + rest == rest;
      }
    }
  }

  lemma RequestKeepsWindows(h: History, p: Policy, key: Key, now: int)
    requires WindowsBounded(h, p)
    ensures WindowsBounded(Request(h, p, key, now), p)
  {
    var h' := Request(h, p, key, now);
    forall k, from ensures WindowBounded(h', p, k, from) {
      assert Opens(k, from);
      if 0 < p.limit(k) && k == key && h' != h {
        WindowAppend(h.Of(k), Entry(now, h.tokens + 1), from, p.duration(k));
        if from <= now < from + p.duration(k) {
          WindowWithinLive(h.Of(k), from, now, p.duration(k));
        }
      }
    }
  }

  lemma RollbackKeepsWindows(h: History, p: Policy, key: Key, token: nat)
    requires WindowsBounded(h, p)
    ensures WindowsBounded(RolledBack(h, key, token), p)
  {
    var h' := RolledBack(h, key, token);
    forall k, from ensures WindowBounded(h', p, k, from) {
      assert Opens(k, from);
      WindowWithoutToken(h.Of(k), token, from, p.duration(k));
    }
  }

  datatype Event = Ask(key: Key, now: int) | Undo(key: Key, token: nat)

  function Replay(p: Policy, events: seq<Event>): History {
    if events == [] then History(map[], 0) else
    var h := Replay(p, events[..|events| - 1]);
    match events[|events| - 1]
    case Ask(key, now) => Request(h, p, key, now)
    case Undo(key, token) => RolledBack(h, key, token)
  }

  /** Over any run of requests and rollbacks, no window is ever overfull. */
  lemma {:induction false} EveryWindowBounded(p: Policy, events: seq<Event>)
    ensures WindowsBounded(Replay(p, events), p)
  {
    if events != [] {
      EveryWindowBounded(p, events[..|events| - 1]);
      var h := Replay(p, events[..|events| - 1]);
      match events[|events| - 1]
      case Ask(key, now) => RequestKeepsWindows(h, p, key, now);
      case Undo(key, token) => RollbackKeepsWindows(h, p, key, token);
    }
  }

  // ----- the same, counted on the entries

  /** The positions of the entries younger than the window. */
  function Young(es: seq<Entry>, now: int, duration: int): set<int> {
    set i | 0 <= i < |es| && now - es[i].time < duration
  }

  function Within(es: seq<Entry>, from: int, length: int): set<int> {
    set i | 0 <= i < |es| && from <= es[i].time < from + length
  }

  lemma {:induction false} LiveAppend(es: seq<Entry>, e: Entry, now: int, duration: int)
    ensures Live(es + [e], now, duration) == Live(es, now, duration) + if Expired(e, now, duration) then [] else [e]
  {
    if es == [] {
      assert [e][1..] == [];
    } else {
      var rest := es[1..];
      LiveAppend(rest, e, now, duration);
      assert (es + [e])[1..] == rest + [e] && (es + [e])[0] == es[0];
      var head := if Expired(es[0], now, duration) then [] else [es[0]];
      assert Live(es, now, duration) == head + Live(rest, now, duration);
      assert Live(es + [e], now, duration) == head + Live(rest + [e], now, duration);
    }
  }

  lemma {:induction false} LiveCount(es: seq<Entry>, now: int, duration: int)
    ensures |Live(es, now, duration)| == |Young(es, now, duration)|
  {
    if es != [] {
      var n := |es| - 1;
      var init, last := es[..n], es[n];
      assert es == init + [last];
      LiveCount(init, now, duration);
      LiveAppend(init, last, now, duration);
      assert Young(es, now, duration) ==
        if Expired(last, now, duration) then Young(init, now, duration) else Young(init, now, duration) + {n};
    }
  }

  lemma {:induction false} WindowCount(es: seq<Entry>, from: int, length: int)
    ensures InWindow(es, from, length) == |Within(es, from, length)|
  {
    if es != [] {
      var n := |es| - 1;
      var init, last := es[..n], es[n];
      assert es == init + [last];
      WindowCount(init, from, length);
      WindowAppend(init, last, from, length);
      assert Within(es, from, length) ==
        if from <= last.time < from + length then Within(init, from, length) + {n} else Within(init, from, length);
    }
  }

  /** A request is accepted exactly when fewer recorded ones than the limit are younger than the window. */
  lemma AcceptsIff(h: History, p: Policy, key: Key, now: int)
    ensures Accepts(h, p, key, now) <==> p.limit(key) <= 0 || |Young(h.Of(key), now, p.duration(key))| < p.limit(key)
  {
    LiveCount(h.Of(key), now, p.duration(key));
  }

  /** Counted on the entries: no window of a limited key ever holds more than its limit. */
  lemma EveryWindowCounted(p: Policy, events: seq<Event>, key: Key, from: int)
    requires 0 < p.limit(key)
    ensures |Within(Replay(p, events).Of(key), from, p.duration(key))| <= p.limit(key)
  {
    EveryWindowBounded(p, events);
    assert Opens(key, from);
    WindowCount(Replay(p, events).Of(key), from, p.duration(key));
  }

  // ----- a token names one slot

  lemma {:induction false} WithoutTokenKeeps(es: seq<Entry>, token: nat, e: Entry)
    ensures e in WithoutToken(es, token) <==> e in es && e.token != token
  {
    if es != [] {
      assert es == [es[0]] + es[1..];
      WithoutTokenKeeps(es[1..], token, e);
    }
  }

  /** Tokens are issued once over all keys. */
  ghost predicate TokensDistinct(h: History) {
    && (forall key, e :: e in h.Of(key) ==> 0 < e.token <= h.tokens)
    && (forall key, key', e, e' :: e in h.Of(key) && e' in h.Of(key') && e.token == e'.token ==> key == key' && e == e')
  }

  lemma RequestKeepsDistinct(h: History, p: Policy, key: Key, now: int)
    requires TokensDistinct(h)
    ensures TokensDistinct(Request(h, p, key, now))
  {
    var h' := Request(h, p, key, now);
    var e' := Entry(now, h.tokens + 1);
    if h' != h {
      forall k, e ensures e in h'.Of(k) <==> e in h.Of(k) || (k == key && e == e') {}
    }
  }

  lemma RollbackKeepsDistinct(h: History, key: Key, token: nat)
    requires TokensDistinct(h)
    ensures TokensDistinct(RolledBack(h, key, token))
  {
    var h' := RolledBack(h, key, token);
    forall k, e | e in h'.Of(k) ensures e in h.Of(k) {
      WithoutTokenKeeps(h.Of(k), token, e);
    }
  }

  lemma {:induction false} TokensNeverReused(p: Policy, events: seq<Event>)
    ensures TokensDistinct(Replay(p, events))
  {
    if events != [] {
      TokensNeverReused(p, events[..|events| - 1]);
      var h := Replay(p, events[..|events| - 1]);
      match events[|events| - 1]
      case Ask(key, now) => RequestKeepsDistinct(h, p, key, now);
      case Undo(key, token) => RollbackKeepsDistinct(h, key, token);
    }
  }

  /**
   Rolling a token back takes away the slot that was given that token, if it is still there under
   that key, and leaves every other request's slot: a stale or foreign token removes nothing.
   */
  lemma RollbackRemovesOwnSlot(p: Policy, events: seq<Event>, key: Key, token: nat, slot: Entry, owner: Key)
    requires slot in Replay(p, events).Of(owner)
    ensures slot in RolledBack(Replay(p, events), key, token).Of(owner) <==> !(owner == key && slot.token == token)
    ensures owner != key && slot.token == token ==> RolledBack(Replay(p, events), key, token) == Replay(p, events)
  {
    var h := Replay(p, events);
    TokensNeverReused(p, events);
    WithoutTokenKeeps(h.Of(key), token, slot);
    if owner != key && slot.token == token {
      WithoutAbsent(h.Of(key), token);
    }
  }

  // ----- what a queue keeps of the history

  predicate Before(a: Entry, b: Entry) {
    a.time <= b.time && a.token < b.token
  }

  /** Oldest first, tokens issued in order, nothing later than the clock. */
  ghost predicate Ordered(es: seq<Entry>, clock: int, tokens: nat) {
    && (forall i, j {:trigger Before(es[i], es[j])} :: 0 <= i < j < |es| ==> Before(es[i], es[j]))
    && (forall i :: 0 <= i < |es| ==> es[i].time <= clock && 0 < es[i].token <= tokens)
  }

  /** The queue is the history without a prefix of expired entries. */
  ghost predicate KeepsRecent(queue: seq<Entry>, es: seq<Entry>, clock: int, duration: int) {
    && |queue| <= |es| && queue == es[|es| - |queue|..]
    && forall i :: 0 <= i < |es| - |queue| ==> Expired(es[i], clock, duration)
  }

  ghost predicate Agrees(queue: seq<Entry>, es: seq<Entry>, clock: int, duration: int, tokens: nat) {
    Ordered(es, clock, tokens) && KeepsRecent(queue, es, clock, duration)
  }

  function QueueOf(store: map<Key, seq<Entry>>, key: Key): seq<Entry> {
    if key in store then store[key] else []
  }

  /** Names the key whose agreement a proof step looks at. */
  ghost predicate At(key: Key) { true }

  ghost predicate AllAgree(store: map<Key, seq<Entry>>, h: History, p: Policy, clock: int) {
    forall key {:trigger At(key)} :: At(key) ==> Agrees(QueueOf(store, key), h.Of(key), clock, p.duration(key), h.tokens)
  }

  lemma AgreesAt(store: map<Key, seq<Entry>>, h: History, p: Policy, clock: int, key: Key)
    requires AllAgree(store, h, p, clock)
    ensures Agrees(QueueOf(store, key), h.Of(key), clock, p.duration(key), h.tokens)
  {
    assert At(key);
  }

  /** Pruning a prefix is filtering: when the cut is where entries stop being expired. */
  lemma {:induction false} PruneIsFilter(es: seq<Entry>, k: nat, now: int, duration: int)
    requires k <= |es|
    requires forall i :: 0 <= i < k ==> Expired(es[i], now, duration)
    requires forall i :: k <= i < |es| ==> !Expired(es[i], now, duration)
    ensures Live(es, now, duration) == es[k..]
  {
    if es != [] {
      PruneIsFilter(es[1..], if k == 0 then 0 else k - 1, now, duration);
    }
  }

  lemma {:induction false} WithoutAbsent(es: seq<Entry>, token: nat)
    requires forall i :: 0 <= i < |es| ==> es[i].token != token
    ensures WithoutToken(es, token) == es
  {
    if es != [] { WithoutAbsent(es[1..], token); }
  }

  /** Tokens are unique, so removing one removes exactly its own slot. */
  lemma {:induction false} WithoutPresent(es: seq<Entry>, j: nat)
    requires j < |es|
    requires forall i :: 0 <= i < |es| && i != j ==> es[i].token != es[j].token
    ensures WithoutToken(es, es[j].token) == es[..j] + es[j + 1..]
  {
    if j == 0 {
      WithoutAbsent(es[1..], es[0].token);
    } else {
      WithoutPresent(es[1..], j - 1);
      assert es[1..][j - 1] == es[j];
      assert es[..j] + es[j + 1..] == [es[0]] + (es[1..][..j - 1] + es[1..][j..]);
    }
  }

  lemma AllAgreeLater(store: map<Key, seq<Entry>>, h: History, p: Policy, clock: int, now: int)
    requires AllAgree(store, h, p, clock) && clock <= now
    ensures AllAgree(store, h, p, now)
  {
    forall key ensures Agrees(QueueOf(store, key), h.Of(key), now, p.duration(key), h.tokens) {
      AgreesAt(store, h, p, clock, key);
    }
  }

  lemma AgreesMoreTokens(q: seq<Entry>, es: seq<Entry>, clock: int, duration: int, tokens: nat, tokens': nat)
    requires Agrees(q, es, clock, duration, tokens) && tokens <= tokens'
    ensures Agrees(q, es, clock, duration, tokens')
  {}

  /** Changing one key keeps the others in agreement. */
  lemma AllAgreeAt(store: map<Key, seq<Entry>>, h: History, p: Policy, clock: int,
                   key: Key, store': map<Key, seq<Entry>>, h': History)
    requires AllAgree(store, h, p, clock) && h.tokens <= h'.tokens
    requires forall k :: k != key ==> QueueOf(store', k) == QueueOf(store, k) && h'.Of(k) == h.Of(k)
    requires Agrees(QueueOf(store', key), h'.Of(key), clock, p.duration(key), h'.tokens)
    ensures AllAgree(store', h', p, clock)
  {
    forall k ensures Agrees(QueueOf(store', k), h'.Of(k), clock, p.duration(k), h'.tokens) {
      if k != key {
        AgreesAt(store, h, p, clock, k);
        AgreesMoreTokens(QueueOf(store, k), h.Of(k), clock, p.duration(k), h.tokens, h'.tokens);
      }
    }
  }

  /** The cut of the queue is the cut of the whole history, so its length decides. */
  lemma PrunedQueue(q: seq<Entry>, es: seq<Entry>, first: nat, now: int, duration: int, tokens: nat)
    requires Agrees(q, es, now, duration, tokens) && first <= |q|
    requires forall i :: 0 <= i < first ==> Expired(q[i], now, duration)
    requires first < |q| ==> !Expired(q[first], now, duration)
    ensures Live(es, now, duration) == q[first..]
    ensures Agrees(q[first..], es, now, duration, tokens)
  {
    var k := |es| - |q|;
    forall i | 0 <= i < |es| ensures Expired(es[i], now, duration) <==> i < k + first {
      if k <= i {
        assert es[i] == q[i - k];
        if k + first < i { assert es[k + first] == q[first] && Before(es[k + first], es[i]); }
      }
    }
    PruneIsFilter(es, k + first, now, duration);
    assert es[k + first..] == q[first..];
  }

  lemma AgreesAppend(q: seq<Entry>, es: seq<Entry>, now: int, duration: int, tokens: nat)
    requires Agrees(q, es, now, duration, tokens)
    ensures Agrees(q + [Entry(now, tokens + 1)], es + [Entry(now, tokens + 1)], now, duration, tokens + 1)
  {
    var e := Entry(now, tokens + 1);
    assert (es + [e])[|es| - |q|..] == q + [e];
  }

  lemma OrderedRemove(es: seq<Entry>, j: nat, clock: int, tokens: nat)
    requires Ordered(es, clock, tokens) && j < |es|
    ensures Ordered(es[..j] + es[j + 1..], clock, tokens)
  {
    var es' := es[..j] + es[j + 1..];
    forall a, b | 0 <= a < b < |es'| ensures Before(es'[a], es'[b]) {
      assert Before(es[if a < j then a else a + 1], es[if b < j then b else b + 1]);
    }
  }

  /** Dropping entry `j` from the history and, if it is there, from the queue. */
  lemma RecentRemove(q: seq<Entry>, es: seq<Entry>, j: nat, clock: int, duration: int)
    requires KeepsRecent(q, es, clock, duration) && j < |es|
    ensures var k := |es| - |q|; var es' := es[..j] + es[j + 1..];
      KeepsRecent(if j < k then q else q[..j - k] + q[j - k + 1..], es', clock, duration)
  {
    var k := |es| - |q|;
    var es' := es[..j] + es[j + 1..];
    if j < k {
      assert es'[k - 1..] == q;
    } else {
      assert q[..j - k] + q[j - k + 1..] == es'[k..];
    }
  }

  lemma TokensDiffer(es: seq<Entry>, j: nat, clock: int, tokens: nat)
    requires Ordered(es, clock, tokens) && j < |es|
    ensures forall i :: 0 <= i < |es| && i != j ==> es[i].token != es[j].token
  {
    assert forall i :: 0 <= i < j ==> Before(es[i], es[j]);
    assert forall i :: j < i < |es| ==> Before(es[j], es[i]);
  }

  /** What the queue loses with `token`, when the history has it at `j`. */
  lemma QueueWithout(q: seq<Entry>, es: seq<Entry>, j: nat)
    requires |q| <= |es| && q == es[|es| - |q|..] && j < |es|
    requires forall i :: 0 <= i < |es| && i != j ==> es[i].token != es[j].token
    ensures var k := |es| - |q|;
      WithoutToken(q, es[j].token) == if j < k then q else q[..j - k] + q[j - k + 1..]
  {
    var k := |es| - |q|;
    forall i | 0 <= i < |q| && i != j - k ensures q[i].token != es[j].token {
      assert q[i] == es[k + i];
    }
    if j < k {
      WithoutAbsent(q, es[j].token);
    } else {
      assert q[j - k] == es[j];
      WithoutPresent(q, j - k);
    }
  }

  /** Rolling back in the history and in the queue keeps them in agreement. */
  lemma AgreesRollback(q: seq<Entry>, es: seq<Entry>, clock: int, duration: int, tokens: nat, token: nat)
    requires Agrees(q, es, clock, duration, tokens)
    ensures Agrees(WithoutToken(q, token), WithoutToken(es, token), clock, duration, tokens)
  {
    if j: nat :| j < |es| && es[j].token == token {
      TokensDiffer(es, j, clock, tokens);
      WithoutPresent(es, j);
      QueueWithout(q, es, j);
      OrderedRemove(es, j, clock, tokens);
      RecentRemove(q, es, j, clock, duration);
    } else {
      WithoutAbsent(es, token);
      assert forall i :: 0 <= i < |q| ==> q[i] == es[|es| - |q| + i];
      WithoutAbsent(q, token);
    }
  }

  /** Pruning one key's queue where its entries stop being expired. */
  lemma PruneAgrees(store: map<Key, seq<Entry>>, h: History, p: Policy, now: int, key: Key, first: nat)
    requires AllAgree(store, h, p, now) && first <= |QueueOf(store, key)|
    requires forall i :: 0 <= i < first ==> Expired(QueueOf(store, key)[i], now, p.duration(key))
    requires first < |QueueOf(store, key)| ==> !Expired(QueueOf(store, key)[first], now, p.duration(key))
    ensures Live(h.Of(key), now, p.duration(key)) == QueueOf(store, key)[first..]
    ensures AllAgree(store[key := QueueOf(store, key)[first..]], h, p, now)
  {
    var queue := QueueOf(store, key);
    AgreesAt(store, h, p, now, key);
    PrunedQueue(queue, h.Of(key), first, now, p.duration(key), h.tokens);
    AllAgreeAt(store, h, p, now, key, store[key := queue[first..]], h);
  }

  /** Recording an accepted request after pruning. */
  lemma RequestAgrees(store: map<Key, seq<Entry>>, h: History, p: Policy, now: int, key: Key)
    requires AllAgree(store, h, p, now) && key in store
    requires 0 < p.limit(key) && Accepts(h, p, key, now)
    ensures AllAgree(store[key := store[key] + [Entry(now, h.tokens + 1)]], Request(h, p, key, now), p, now)
    ensures Request(h, p, key, now).tokens == h.tokens + 1
  {
    var h' := History(h.accepted[key := h.Of(key) + [Entry(now, h.tokens + 1)]], h.tokens + 1);
    RecordAgrees(store, h, h', p, now, key);
    assert Request(h, p, key, now) == h';
  }

  lemma RecordAgrees(store: map<Key, seq<Entry>>, h: History, h': History, p: Policy, now: int, key: Key)
    requires AllAgree(store, h, p, now) && key in store
    requires h' == History(h.accepted[key := h.Of(key) + [Entry(now, h.tokens + 1)]], h.tokens + 1)
    ensures AllAgree(store[key := store[key] + [Entry(now, h.tokens + 1)]], h', p, now)
  {
    var store' := store[key := store[key] + [Entry(now, h.tokens + 1)]];
    assert Agrees(QueueOf(store', key), h'.Of(key), now, p.duration(key), h'.tokens) by {
      AgreesAt(store, h, p, now, key);
      AgreesAppend(QueueOf(store, key), h.Of(key), now, p.duration(key), h.tokens);
    }
    AllAgreeAt(store, h, p, now, key, store', h');
  }

  /** A queue may go once its newest entry is older than the expiration. */
  predicate Evictable(queue: seq<Entry>, now: int, expiration: int) {
    queue == [] || now - queue[|queue| - 1].time > expiration
  }

  /** The newest entry is within the expiration. */
  predicate Lives(queue: seq<Entry>, now: int, expiration: int) {
    queue != [] && now - queue[|queue| - 1].time <= expiration
  }

  lemma EvictedAgrees(q: seq<Entry>, es: seq<Entry>, now: int, duration: int, expiration: int, tokens: nat)
    requires Agrees(q, es, now, duration, tokens) && Evictable(q, now, expiration) && duration <= expiration
    ensures Agrees([], es, now, duration, tokens)
  {
    if q != [] {
      var last := |es| - 1;
      assert es[last] == q[|q| - 1];
      assert forall i :: 0 <= i < last ==> Before(es[i], es[last]);
    }
  }

  lemma EvictionAgrees(store: map<Key, seq<Entry>>, h: History, p: Policy, now: int, key: Key, expiration: int)
    requires AllAgree(store, h, p, now) && key in store && Evictable(store[key], now, expiration)
    requires p.duration(key) <= expiration
    ensures AllAgree(store - {key}, h, p, now)
  {
    var store' := store - {key};
    assert QueueOf(store', key) == [];
    assert Agrees([], h.Of(key), now, p.duration(key), h.tokens) by {
      AgreesAt(store, h, p, now, key);
      EvictedAgrees(QueueOf(store, key), h.Of(key), now, p.duration(key), expiration, h.tokens);
    }
    AllAgreeAt(store, h, p, now, key, store', h);
  }

  // ----- the limiter

  class InMemoryRateLimiter {
    var store: map<Key, seq<Entry>>
    var sequence: nat
    const expiration: int
    const policy: Policy
    ghost var history: History
    ghost var clock: int            // latest time read

    ghost predicate Valid()
      reads this
    {
      && history.tokens == sequence
      && (forall key :: policy.duration(key) <= expiration)
      && AllAgree(store, history, policy, clock)
      && WindowsBounded(history, policy)
    }

    constructor (policy: Policy, expiration: int, now: int)
      requires forall key :: policy.duration(key) <= expiration
      ensures Valid() && history == History(map[], 0) && clock == now && this.policy == policy
    {
      store, sequence, this.expiration, this.policy := map[], 0, expiration, policy;
      history, clock := History(map[], 0), now;
    }

    /** The index of the first entry that is still inside the window. */
    static method FirstLive(queue: seq<Entry>, now: int, duration: int) returns (first: nat)
      ensures first <= |queue|
      ensures forall i :: 0 <= i < first ==> Expired(queue[i], now, duration)
      ensures first < |queue| ==> !Expired(queue[first], now, duration)
    {
      first := 0;
      while first < |queue| && now - queue[first].time >= duration
        invariant first <= |queue|
        invariant forall i :: 0 <= i < first ==> Expired(queue[i], now, duration)
      {
        first := first + 1;
      }
    }

    /** Drops the expired prefix of a key's queue; what remains is the live history. */
    method Prune(key: Key, now: int)
      requires Valid() && clock <= now
      modifies this`store, this`clock
      ensures Valid() && clock == now && key in store
      ensures store[key] == Live(history.Of(key), now, policy.duration(key))
    {
      AllAgreeLater(store, history, policy, clock, now);
      clock := now;
      var queue := QueueOf(store, key);
      var first := FirstLive(queue, now, policy.duration(key));
      PruneAgrees(store, history, policy, now, key, first);
      store := store[key := queue[first..]];
    }

    /**
     Accepts exactly when the full history has fewer than `limit` live entries, and records the
     request there under a token never used before.
     */
    method RequestToken(key: Key, now: int) returns (token: nat, allowed: bool)
      requires Valid() && clock <= now
      modifies this
      ensures Valid() && clock == now
      ensures allowed <==> Accepts(old(history), policy, key, now)
      ensures allowed <==>
        policy.limit(key) <= 0 || |Young(old(history).Of(key), now, policy.duration(key))| < policy.limit(key)
      ensures history == Request(old(history), policy, key, now)
      ensures token == if allowed && 0 < policy.limit(key) then old(sequence) + 1 else 0
    {
      AcceptsIff(history, policy, key, now);
      if policy.limit(key) <= 0 {
        AllAgreeLater(store, history, policy, clock, now);
        clock := now;
        return 0, true;
      }
      Prune(key, now);
      if |store[key]| >= policy.limit(key) { return 0, false; }
      token := Record(key, now);
      allowed := true;
    }

    /** Appends an accepted request to its pruned queue. */
    method Record(key: Key, now: int) returns (token: nat)
      requires Valid() && clock == now && key in store && 0 < policy.limit(key) && Accepts(history, policy, key, now)
      modifies this
      ensures Valid() && clock == now
      ensures history == Request(old(history), policy, key, now)
      ensures token == old(sequence) + 1
    {
      RequestKeepsWindows(history, policy, key, now);
      RequestAgrees(store, history, policy, now, key);
      sequence := sequence + 1;
      store := store[key := store[key] + [Entry(now, sequence)]];
      history := Request(history, policy, key, now);
      token := sequence;
    }

    /** Removes the slot of `token` under `key` from the history, and no other slot. */
    method Rollback(key: Key, token: nat)
      requires Valid()
      modifies this`store, this`history
      ensures Valid()
      ensures history == if token == 0 then old(history) else RolledBack(old(history), key, token)
    {
      if token == 0 { return; }
      ghost var es, h, was := history.Of(key), history, store;
      AgreesAt(store, history, policy, clock, key);
      AgreesRollback(QueueOf(store, key), es, clock, policy.duration(key), sequence, token);
      RollbackKeepsWindows(h, policy, key, token);
      history := RolledBack(h, key, token);
      if key in store {
        var queue := store[key];
        var i := 0;
        while i < |queue| && queue[i].token != token
          invariant i <= |queue| && forall k :: 0 <= k < i ==> queue[k].token != token
        {
          i := i + 1;
        }
        if i < |queue| {
          OwnTokenOnce(queue, es, clock, policy.duration(key), sequence, i);
          WithoutPresent(queue, i);
          store := store[key := queue[..i] + queue[i + 1..]];
        } else {
          WithoutAbsent(queue, token);
        }
      }
      AllAgreeAt(was, h, policy, clock, key, store, history);
    }

    /** One eviction pass. It leaves the history alone, so no later answer changes. */
    method ClearExpired(now: int)
      requires Valid() && clock <= now
      modifies this`store, this`clock
      ensures Valid() && clock == now
      ensures store.Keys == set key | key in old(store) && Lives(old(store)[key], now, expiration)
      ensures forall key <- store :: store[key] == old(store)[key]
    {
      AllAgreeLater(store, history, policy, clock, now);
      clock := now;
      ghost var before := store;
      var keys := store.Keys;
      while keys != {}
        invariant AllAgree(store, history, policy, now) && clock == now && keys <= store.Keys <= before.Keys
        invariant forall key <- store :: store[key] == before[key]
        invariant forall key <- before :: key in store <==> key in keys || !Evictable(before[key], now, expiration)
        decreases |keys|
      {
        var key :| key in keys;
        keys := keys - {key};
        if Evictable(store[key], now, expiration) {
          EvictionAgrees(store, history, policy, now, key, expiration);
          store := store - {key};
        }
      }
    }
  }

  /** In a queue that agrees with its history no two entries share a token. */
  lemma OwnTokenOnce(q: seq<Entry>, es: seq<Entry>, clock: int, duration: int, tokens: nat, i: nat)
    requires Agrees(q, es, clock, duration, tokens) && i < |q|
    ensures forall k :: 0 <= k < |q| && k != i ==> q[k].token != q[i].token
  {
    var n := |es| - |q|;
    TokensDiffer(es, n + i, clock, tokens);
    assert forall k :: 0 <= k < |q| ==> q[k] == es[n + k];
  }
}
