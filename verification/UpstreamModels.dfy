/**
 Synchronising a channel's model list with its upstream: ordered lists of names without
 duplicates, detection of pending additions and removals, and applying a selection of them.
 */
module UpstreamModels {

  // ----- names

  /** unicode.IsSpace */
  predicate IsSpace(c: char) {
    || c == ' ' || '\t' <= c <= '\r' || c == '\U{0085}' || c == '\U{00A0}'
    || c == '\U{1680}' || '\U{2000}' <= c <= '\U{200A}' || c == '\U{2028}' || c == '\U{2029}'
    || c == '\U{202F}' || c == '\U{205F}' || c == '\U{3000}'
  }

  function TrimLeft(s: string): string {
    if s != "" && IsSpace(s[0]) then TrimLeft(s[1..]) else s
  }

  function TrimRight(s: string): string {
    if s != "" && IsSpace(s[|s| - 1]) then TrimRight(s[..|s| - 1]) else s
  }

  function TrimSpace(s: string): string {
    TrimRight(TrimLeft(s))
  }

  predicate Trimmed(s: string) {
    s != "" ==> !IsSpace(s[0]) && !IsSpace(s[|s| - 1])
  }

  lemma {:induction false} TrimRightKeepsStart(s: string)
    ensures TrimRight(s) <= s
    ensures TrimRight(s) != "" ==> !IsSpace(TrimRight(s)[|TrimRight(s)| - 1])
  {
    if s != "" && IsSpace(s[|s| - 1]) { TrimRightKeepsStart(s[..|s| - 1]); }
  }

  lemma {:induction false} TrimLeftStart(s: string)
    ensures TrimLeft(s) != "" ==> !IsSpace(TrimLeft(s)[0])
  {
    if s != "" && IsSpace(s[0]) { TrimLeftStart(s[1..]); }
  }

  lemma TrimSpaceTrims(s: string)
    ensures Trimmed(TrimSpace(s))
    ensures Trimmed(s) ==> TrimSpace(s) == s
  {
    TrimLeftStart(s);
    TrimRightKeepsStart(TrimLeft(s));
  }

  predicate Spaces(s: string) { forall i :: 0 <= i < |s| ==> IsSpace(s[i]) }

  /** `raw` is `x` with nothing but spaces around it. */
  predicate Around(raw: string, x: string) {
    exists a, b :: 0 <= a <= b <= |raw| && Framed(raw, x, a, b)
  }

  predicate Framed(raw: string, x: string, a: nat, b: nat)
    requires a <= b <= |raw|
  {
    raw[a..b] == x && Spaces(raw[..a]) && Spaces(raw[b..])
  }

  lemma {:induction false} TrimLeftAt(s: string) returns (a: nat)
    ensures a <= |s| && TrimLeft(s) == s[a..] && Spaces(s[..a])
  {
    if s != "" && IsSpace(s[0]) {
      var k := TrimLeftAt(s[1..]);
      a := k + 1;
      assert s[1..][k..] == s[a..];
      assert forall i :: 1 <= i < a ==> s[i] == s[1..][..k][i - 1];
    } else {
      a := 0;
    }
  }

  lemma {:induction false} TrimRightAt(s: string) returns (b: nat)
    ensures b <= |s| && TrimRight(s) == s[..b] && Spaces(s[b..])
  {
    if s != "" && IsSpace(s[|s| - 1]) {
      var n := |s| - 1;
      b := TrimRightAt(s[..n]);
      assert s[..n][..b] == s[..b];
      assert forall i :: b <= i < n ==> s[i] == s[..n][b..][i - b];
    } else {
      b := |s|;
    }
  }

  /** Trimming cuts exactly the spaces around: what is left is trimmed and framed by spaces only. */
  lemma TrimSpaceCuts(s: string)
    ensures Trimmed(TrimSpace(s)) && Around(s, TrimSpace(s))
  {
    TrimSpaceTrims(s);
    var a := TrimLeftAt(s);
    var b := TrimRightAt(s[a..]);
    assert s[a..][..b] == s[a..a + b] && s[a..][b..] == s[a + b..];
    assert Framed(s, TrimSpace(s), a, a + b);
  }

  lemma {:induction false} TrimLeftFramed(s: string, a: nat)
    requires a < |s| && Spaces(s[..a]) && !IsSpace(s[a])
    ensures TrimLeft(s) == s[a..]
  {
    if a > 0 {
      assert s[..a][0] == s[0];
      var rest := s[1..][..a - 1];
      forall i | 0 <= i < |rest| ensures IsSpace(rest[i]) { assert rest[i] == s[..a][i + 1]; }
      TrimLeftFramed(s[1..], a - 1);
      assert s[1..][a - 1..] == s[a..];
    }
  }

  lemma {:induction false} TrimRightFramed(s: string, b: nat)
    requires 0 < b <= |s| && Spaces(s[b..]) && !IsSpace(s[b - 1])
    ensures TrimRight(s) == s[..b]
  {
    if b < |s| {
      var n := |s| - 1;
      assert s[b..][n - b] == s[n];
      var rest := s[..n][b..];
      forall i | 0 <= i < |rest| ensures IsSpace(rest[i]) { assert rest[i] == s[b..][i]; }
      TrimRightFramed(s[..n], b);
      assert s[..n][..b] == s[..b];
    }
  }

  /** A trimmed, non-empty name with spaces around it trims to itself, and to nothing else. */
  lemma TrimsTo(raw: string, x: string)
    requires x != "" && Trimmed(x)
    ensures Around(raw, x) <==> TrimSpace(raw) == x
  {
    if Around(raw, x) {
      var a: nat, b: nat :| a <= b <= |raw| && Framed(raw, x, a, b);
      assert raw[a] == x[0] && raw[b - 1] == x[|x| - 1];
      TrimLeftFramed(raw, a);
      var left := raw[a..];
      assert left[b - a..] == raw[b..] && left[..b - a] == x && left[b - a - 1] == raw[b - 1];
      TrimRightFramed(left, b - a);
    }
    TrimSpaceCuts(raw);
  }

  // ----- ordered lists without duplicates

  predicate NoDuplicates(xs: seq<string>) {
    forall i, j :: 0 <= i < j < |xs| ==> xs[i] != xs[j]
  }

  /** Trimmed, non-empty, no name twice. */
  predicate Clean(xs: seq<string>) {
    NoDuplicates(xs) && forall i :: 0 <= i < |xs| ==> xs[i] != "" && Trimmed(xs[i])
  }

  /** normalizeModelNames: trim, drop empty names, keep first occurrences. */
  function Normalize(xs: seq<string>): seq<string> {
    if xs == [] then [] else
    var init, x := Normalize(xs[..|xs| - 1]), TrimSpace(xs[|xs| - 1]);
    if x == "" || x in init then init else init + [x]
  }

  function Filter(xs: seq<string>, keep: string -> bool): seq<string> {
    if xs == [] then [] else
    Filter(xs[..|xs| - 1], keep) + if keep(xs[|xs| - 1]) then [xs[|xs| - 1]] else []
  }

  lemma {:induction false} NormalizeClean(xs: seq<string>)
    ensures Clean(Normalize(xs))
  {
    if xs != [] {
      NormalizeClean(xs[..|xs| - 1]);
      TrimSpaceTrims(xs[|xs| - 1]);
    }
  }

  /** Normalising a clean list changes nothing, so normalisation is idempotent. */
  lemma {:induction false} CleanFixed(xs: seq<string>)
    requires Clean(xs)
    ensures Normalize(xs) == xs
  {
    if xs != [] {
      var n := |xs| - 1;
      CleanFixed(xs[..n]);
      TrimSpaceTrims(xs[n]);
      assert xs == xs[..n] + [xs[n]];
    }
  }

  lemma {:induction false} FilterMember(xs: seq<string>, keep: string -> bool, x: string)
    ensures x in Filter(xs, keep) <==> x in xs && keep(x)
  {
    if xs != [] {
      assert xs == xs[..|xs| - 1] + [xs[|xs| - 1]];
      FilterMember(xs[..|xs| - 1], keep, x);
    }
  }

  lemma {:induction false} FilterClean(xs: seq<string>, keep: string -> bool)
    requires Clean(xs)
    ensures Clean(Filter(xs, keep))
  {
    if xs != [] {
      var n := |xs| - 1;
      FilterClean(xs[..n], keep);
      var init := Filter(xs[..n], keep);
      forall i | 0 <= i < |init| ensures init[i] != xs[n] {
        FilterMember(xs[..n], keep, init[i]);
        assert init[i] in init;
      }
    }
  }

  lemma {:induction false} FilterNone(xs: seq<string>, keep: string -> bool)
    requires forall x <- xs :: !keep(x)
    ensures Filter(xs, keep) == []
  {
    if xs != [] { FilterNone(xs[..|xs| - 1], keep); }
  }

  lemma {:induction false} FilterAll(xs: seq<string>, keep: string -> bool)
    requires forall x <- xs :: keep(x)
    ensures Filter(xs, keep) == xs
  {
    if xs != [] {
      FilterAll(xs[..|xs| - 1], keep);
      assert xs == xs[..|xs| - 1] + [xs[|xs| - 1]];
    }
  }

  /** Normalising keeps exactly the trimmed, non-empty names that some entry holds between spaces. */
  lemma {:induction false} NormalizeMember(xs: seq<string>, x: string)
    ensures x in Normalize(xs) <==> x != "" && Trimmed(x) && exists i :: 0 <= i < |xs| && Around(xs[i], x)
  {
    NormalizeClean(xs);
    if xs != [] {
      var n := |xs| - 1;
      NormalizeMember(xs[..n], x);
      TrimSpaceTrims(xs[n]);
      if x != "" && Trimmed(x) { TrimsTo(xs[n], x); }
      assert forall i :: 0 <= i < n ==> xs[..n][i] == xs[i];
    }
  }

  /** The first entry that holds the name. */
  ghost predicate FirstAt(xs: seq<string>, x: string, i: nat) {
    i < |xs| && Around(xs[i], x) && forall j :: 0 <= j < i ==> !Around(xs[j], x)
  }

  /** Names stand in the order of the entries that first hold them. */
  lemma {:induction false} NormalizeOrder(xs: seq<string>, p: nat, q: nat, i: nat, j: nat)
    requires p < q < |Normalize(xs)| && FirstAt(xs, Normalize(xs)[p], i) && FirstAt(xs, Normalize(xs)[q], j)
    ensures i < j
  {
    var n := |xs| - 1;
    var init, all := Normalize(xs[..n]), Normalize(xs);
    assert all[p] == init[p];
    FirstEarlier(xs, n, all[p], i);
    if q < |init| {
      FirstEarlier(xs, n, all[q], j);
      NormalizeOrder(xs[..n], p, q, i, j);
    } else {
      NormalizeMember(xs[..n], all[q]);
      NormalizeClean(xs);
      assert all[q] !in init;
      forall k | 0 <= k < n ensures !Around(xs[k], all[q]) { assert xs[..n][k] == xs[k]; }
    }
  }

  lemma FirstEarlier(xs: seq<string>, n: nat, x: string, i: nat)
    requires n < |xs| && x in Normalize(xs[..n]) && FirstAt(xs, x, i)
    ensures i < n && FirstAt(xs[..n], x, i)
  {
    NormalizeMember(xs[..n], x);
    var k :| 0 <= k < n && Around(xs[..n][k], x);
    assert xs[..n][k] == xs[k];
  }

  function Outside(removed: seq<string>): string -> bool { x => x !in removed }

  function Subtract(base: seq<string>, removed: seq<string>): seq<string> {
    Filter(Normalize(base), Outside(Normalize(removed)))
  }

  function Intersect(base: seq<string>, allowed: seq<string>): seq<string> {
    var names := Normalize(allowed);
    Filter(Normalize(base), x => x in names)
  }

  function Merge(base: seq<string>, appended: seq<string>): seq<string> {
    Normalize(base) + Filter(Normalize(appended), Outside(Normalize(base)))
  }

  /** The accumulating loop of mergeModelNames; `merged` doubles as its set of seen names. */
  method MergeModelNames(base: seq<string>, appended: seq<string>) returns (merged: seq<string>)
    ensures merged == Merge(base, appended)
  {
    merged := Normalize(base);
    var more := Normalize(appended);
    NormalizeClean(appended);
    assert more[..0] == [];
    for i := 0 to |more|
      invariant merged == Normalize(base) + Filter(more[..i], Outside(Normalize(base)))
    {
      assert more[..i + 1][..i] == more[..i];
      FilterMember(more[..i], Outside(Normalize(base)), more[i]);
      if more[i] !in merged {
        merged := merged + [more[i]];
      }
    }
    assert more[..|more|] == more;
  }

  lemma SubtractMember(base: seq<string>, removed: seq<string>, x: string)
    requires Clean(base) && Clean(removed)
    ensures Clean(Subtract(base, removed))
    ensures x in Subtract(base, removed) <==> x in base && x !in removed
  {
    CleanFixed(base);
    CleanFixed(removed);
    FilterClean(base, Outside(removed));
    FilterMember(base, Outside(removed), x);
  }

  lemma IntersectMember(base: seq<string>, allowed: seq<string>, x: string)
    requires Clean(base) && Clean(allowed)
    ensures Clean(Intersect(base, allowed))
    ensures x in Intersect(base, allowed) <==> x in base && x in allowed
  {
    CleanFixed(base);
    CleanFixed(allowed);
    FilterClean(base, y => y in allowed);
    FilterMember(base, y => y in allowed, x);
  }

  lemma MergeMember(base: seq<string>, appended: seq<string>, x: string)
    requires Clean(base) && Clean(appended)
    ensures Clean(Merge(base, appended))
    ensures x in Merge(base, appended) <==> x in base || x in appended
  {
    CleanFixed(base);
    CleanFixed(appended);
    var more := Filter(appended, Outside(base));
    FilterClean(appended, Outside(base));
    FilterMember(appended, Outside(base), x);
    forall i | 0 <= i < |more| ensures more[i] !in base {
      FilterMember(appended, Outside(base), more[i]);
      assert more[i] in more;
    }
  }

  // ----- applying a selection

  /** applySelectedModelChanges: an addition wins over a removal of the same name. */
  function ApplySelected(origin: seq<string>, add: seq<string>, remove: seq<string>): seq<string> {
    var toAdd := Normalize(add);
    Subtract(Merge(origin, toAdd), Subtract(Normalize(remove), toAdd))
  }

  lemma ApplySelectedMember(origin: seq<string>, add: seq<string>, remove: seq<string>, x: string)
    requires Clean(origin) && Clean(add) && Clean(remove)
    ensures Clean(ApplySelected(origin, add, remove))
    ensures x in ApplySelected(origin, add, remove) <==> x in add || (x in origin && x !in remove)
  {
    CleanFixed(add);
    CleanFixed(remove);
    SubtractMember(remove, add, x);
    MergeMember(origin, add, x);
    SubtractMember(Merge(origin, add), Subtract(remove, add), x);
  }

  lemma {:induction false} FilterConcat(xs: seq<string>, ys: seq<string>, keep: string -> bool)
    ensures Filter(xs + ys, keep) == Filter(xs, keep) + Filter(ys, keep)
  {
    if ys == [] {
      assert xs + ys == xs;
    } else {
      assert (xs + ys)[..|xs + ys| - 1] == xs + ys[..|ys| - 1];
      FilterConcat(xs, ys[..|ys| - 1], keep);
    }
  }

  lemma {:induction false} FilterSame(xs: seq<string>, keep: string -> bool, keep': string -> bool)
    requires forall x <- xs :: keep(x) == keep'(x)
    ensures Filter(xs, keep) == Filter(xs, keep')
  {
    if xs != [] { FilterSame(xs[..|xs| - 1], keep, keep'); }
  }

  /** The surviving models in their old order, then the new ones in the order they were added. */
  lemma AppliedOrder(origin: seq<string>, add: seq<string>, remove: seq<string>)
    requires Clean(origin) && Clean(add) && Clean(remove)
    ensures ApplySelected(origin, add, remove)
         == Filter(origin, x => x !in remove || x in add) + Filter(add, Outside(origin))
  {
    var removed, more := Subtract(remove, add), Filter(add, Outside(origin));
    CleanFixed(origin);
    CleanFixed(add);
    CleanFixed(remove);
    MergeMember(origin, add, "");
    CleanFixed(origin + more);
    SubtractMember(remove, add, "");
    CleanFixed(removed);
    FilterConcat(origin, more, Outside(removed));
    forall x ensures x in removed <==> x in remove && x !in add { SubtractMember(remove, add, x); }
    FilterSame(origin, Outside(removed), x => x !in remove || x in add);
    forall x <- more ensures Outside(removed)(x) { FilterMember(add, Outside(origin), x); }
    FilterAll(more, Outside(removed));
  }

  ghost predicate SetChanged(xs: seq<string>, ys: seq<string>) {
    exists x :: (x in xs) != (x in ys)
  }

  /**
   The list changes exactly when the set of models changes: surviving models keep their order and
   new ones are appended.
   */
  lemma ChangedIffSetChanged(origin: seq<string>, add: seq<string>, remove: seq<string>)
    requires Clean(origin) && Clean(add) && Clean(remove)
    ensures var next := ApplySelected(origin, add, remove);
      next != origin <==> SetChanged(next, origin)
  {
    var next := ApplySelected(origin, add, remove);
    if !SetChanged(next, origin) {
      CleanFixed(origin);
      CleanFixed(add);
      CleanFixed(remove);
      var removed := Subtract(remove, add);
      var more := Filter(add, Outside(origin));
      forall x <- add ensures !Outside(origin)(x) {
        ApplySelectedMember(origin, add, remove, x);
      }
      FilterNone(add, Outside(origin));
      assert Merge(origin, add) == origin;
      SubtractMember(remove, add, "");
      CleanFixed(removed);
      forall x <- origin ensures Outside(removed)(x) {
        SubtractMember(remove, add, x);
        ApplySelectedMember(origin, add, remove, x);
      }
      FilterAll(origin, Outside(removed));
    }
  }

  // ----- detection

  const REGEX_PREFIX := "regex:"

  /** Ignore rules are names, or `regex:` followed by a pattern; `matches` is the regexp library. */
  predicate RuleHits(rule: string, name: string, matches: (string, string) -> bool) {
    if REGEX_PREFIX <= rule then matches(TrimSpace(rule[|REGEX_PREFIX|..]), name) else rule == name
  }

  /** A rule `regex:` with a pattern asks the library about the trimmed pattern, any other is a name. */
  lemma RuleMeaning(rule: string, body: string, name: string, matches: (string, string) -> bool)
    ensures rule == REGEX_PREFIX + body ==> (RuleHits(rule, name, matches) <==> matches(TrimSpace(body), name))
    ensures !(REGEX_PREFIX <= rule) ==> (RuleHits(rule, name, matches) <==> rule == name)
  {
    if rule == REGEX_PREFIX + body { assert rule[|REGEX_PREFIX|..] == body; }
  }

  predicate Ignored(rules: seq<string>, name: string, matches: (string, string) -> bool) {
    exists i :: 0 <= i < |rules| && RuleHits(rules[i], name, matches)
  }

  datatype Detection = Detection(add: seq<string>, remove: seq<string>)

  predicate Missing(local: seq<string>, rules: seq<string>, mapping: map<string, string>,
                    matches: (string, string) -> bool, x: string) {
    x !in local && x !in mapping.Values && !Ignored(rules, x, matches)
  }

  /** collectPendingUpstreamModelChangesFromModels */
  function Detect(local: seq<string>, upstream: seq<string>, ignored: seq<string>, mapping: map<string, string>,
                  matches: (string, string) -> bool): Detection
  {
    var names, offered, rules := Normalize(local), Normalize(upstream), Normalize(ignored);
    Detection(Normalize(Filter(offered, x => Missing(names, rules, mapping, matches, x))),
              Normalize(Filter(names, x => x !in mapping && x !in offered)))
  }

  lemma DetectFilters(local: seq<string>, upstream: seq<string>, ignored: seq<string>, mapping: map<string, string>,
                      matches: (string, string) -> bool, x: string)
    ensures var d := Detect(local, upstream, ignored, mapping, matches);
      && Clean(d.add) && Clean(d.remove)
      && (x in d.add <==> x in Normalize(upstream) && Missing(Normalize(local), Normalize(ignored), mapping, matches, x))
      && (x in d.remove <==> x in Normalize(local) && x !in mapping && x !in Normalize(upstream))
  {
    var names, offered, rules := Normalize(local), Normalize(upstream), Normalize(ignored);
    var add := (y: string) => Missing(names, rules, mapping, matches, y);
    var remove := (y: string) => y !in mapping && y !in offered;
    NormalizeClean(local);
    NormalizeClean(upstream);
    FilterClean(offered, add);
    FilterClean(names, remove);
    CleanFixed(Filter(offered, add));
    CleanFixed(Filter(names, remove));
    FilterMember(offered, add, x);
    FilterMember(names, remove, x);
  }

  /**
   A pending addition is offered, not local, no redirection target and hit by no rule; a pending
   removal is local, no redirection source and not offered.
   */
  lemma DetectMember(local: seq<string>, upstream: seq<string>, ignored: seq<string>, mapping: map<string, string>,
                     matches: (string, string) -> bool, x: string)
    ensures var d := Detect(local, upstream, ignored, mapping, matches);
      && Clean(d.add) && Clean(d.remove)
      && (x in d.add <==>
            && x in Normalize(upstream) && x !in Normalize(local) && (forall source <- mapping :: mapping[source] != x)
            && forall i :: 0 <= i < |Normalize(ignored)| ==> !RuleHits(Normalize(ignored)[i], x, matches))
      && (x in d.remove <==> x in Normalize(local) && x !in mapping && x !in Normalize(upstream))
  {
    DetectFilters(local, upstream, ignored, mapping, matches, x);
    MissingMeans(Normalize(local), Normalize(ignored), mapping, matches, x);
  }

  lemma MissingMeans(names: seq<string>, rules: seq<string>, mapping: map<string, string>, matches: (string, string) -> bool, x: string)
    ensures Missing(names, rules, mapping, matches, x) <==>
      && x !in names && (forall source <- mapping :: mapping[source] != x)
      && forall i :: 0 <= i < |rules| ==> !RuleHits(rules[i], x, matches)
  {
  }

  /** Pending additions and removals have no name in common. */
  lemma PendingDisjoint(local: seq<string>, upstream: seq<string>, ignored: seq<string>, mapping: map<string, string>,
                        matches: (string, string) -> bool, x: string)
    ensures var d := Detect(local, upstream, ignored, mapping, matches); !(x in d.add && x in d.remove)
  {
    DetectMember(local, upstream, ignored, mapping, matches, x);
  }

  /** The ignore list after applying all additions: an added model stops being ignored. */
  function IgnoredAfter(ignored: seq<string>, add: seq<string>): seq<string> {
    if |add| > 0 then Subtract(Merge(ignored, []), add) else Merge(ignored, [])
  }

  lemma IgnoredAfterMember(ignored: seq<string>, add: seq<string>, x: string)
    requires Clean(add)
    ensures Clean(IgnoredAfter(ignored, add))
    ensures x in IgnoredAfter(ignored, add) <==> x in Normalize(ignored) && x !in add
  {
    NormalizeClean(ignored);
    CleanFixed(Normalize(ignored));
    assert Merge(ignored, []) == Normalize(ignored);
    SubtractMember(Merge(ignored, []), add, x);
    CleanFixed(add);
  }

  /** Dropping rules ignores no more than before. */
  lemma FewerRules(ignored: seq<string>, add: seq<string>, x: string, matches: (string, string) -> bool)
    requires Clean(add) && Ignored(IgnoredAfter(ignored, add), x, matches)
    ensures Ignored(Normalize(ignored), x, matches)
  {
    var was, rules := Normalize(ignored), IgnoredAfter(ignored, add);
    var i :| 0 <= i < |rules| && RuleHits(rules[i], x, matches);
    IgnoredAfterMember(ignored, add, rules[i]);
    assert rules[i] in rules;
    var j :| 0 <= j < |was| && was[j] == rules[i];
    assert RuleHits(was[j], x, matches);
  }

  /**
   An offered, uncovered model that is ignored, and only by rules that are themselves names about
   to be added.
   */
  ghost predicate Exposed(local: seq<string>, upstream: seq<string>, ignored: seq<string>, mapping: map<string, string>,
                          matches: (string, string) -> bool, x: string)
  {
    && x in Normalize(upstream) && x !in Normalize(local) && x !in mapping.Values
    && Ignored(Normalize(ignored), x, matches)
    && forall i :: 0 <= i < |Normalize(ignored)| && RuleHits(Normalize(ignored)[i], x, matches) ==>
         && Normalize(ignored)[i] in Normalize(upstream)
         && Normalize(ignored)[i] !in Normalize(local) && Normalize(ignored)[i] !in mapping.Values
         && !Ignored(Normalize(ignored), Normalize(ignored)[i], matches)
  }

  /** Exposed models are those that the rules left over no longer hold back. */
  lemma ExposedIff(local: seq<string>, upstream: seq<string>, ignored: seq<string>, mapping: map<string, string>,
                   matches: (string, string) -> bool, x: string)
    ensures Exposed(local, upstream, ignored, mapping, matches, x) <==>
      && x in Normalize(upstream) && x !in Normalize(local) && x !in mapping.Values
      && Ignored(Normalize(ignored), x, matches)
      && !Ignored(IgnoredAfter(ignored, Detect(local, upstream, ignored, mapping, matches).add), x, matches)
  {
    var add := Detect(local, upstream, ignored, mapping, matches).add;
    var was := Normalize(ignored);
    DetectMember(local, upstream, ignored, mapping, matches, x);
    forall i | 0 <= i < |was|
      ensures was[i] in IgnoredAfter(ignored, add) <==>
        !(was[i] in Normalize(upstream) && Missing(Normalize(local), was, mapping, matches, was[i]))
    {
      DetectMember(local, upstream, ignored, mapping, matches, was[i]);
      IgnoredAfterMember(ignored, add, was[i]);
    }
    RulesLeft(ignored, add, x, matches);
  }

  /** Something is still ignored exactly when a rule that hits it was not dropped. */
  lemma RulesLeft(ignored: seq<string>, add: seq<string>, x: string, matches: (string, string) -> bool)
    requires Clean(add)
    ensures var was, rules := Normalize(ignored), IgnoredAfter(ignored, add);
      Ignored(rules, x, matches) <==> exists i :: 0 <= i < |was| && was[i] in rules && RuleHits(was[i], x, matches)
  {
    var was, rules := Normalize(ignored), IgnoredAfter(ignored, add);
    if Ignored(rules, x, matches) {
      var i :| 0 <= i < |rules| && RuleHits(rules[i], x, matches);
      IgnoredAfterMember(ignored, add, rules[i]);
      assert rules[i] in rules;
      var j :| 0 <= j < |was| && was[j] == rules[i];
    }
    if i :| 0 <= i < |was| && was[i] in rules && RuleHits(was[i], x, matches) {
      var j :| 0 <= j < |rules| && rules[j] == was[i];
      assert RuleHits(rules[j], x, matches);
    }
  }

  /** What is pending when everything detected was applied and detection runs again. */
  function DetectAgain(local: seq<string>, upstream: seq<string>, ignored: seq<string>, mapping: map<string, string>,
                       matches: (string, string) -> bool): Detection
  {
    var d := Detect(local, upstream, ignored, mapping, matches);
    Detect(ApplySelected(Normalize(local), d.add, d.remove), upstream, IgnoredAfter(ignored, d.add), mapping, matches)
  }

  lemma DetectAgainMember(local: seq<string>, upstream: seq<string>, ignored: seq<string>, mapping: map<string, string>,
                          matches: (string, string) -> bool, x: string)
    ensures var d' := DetectAgain(local, upstream, ignored, mapping, matches);
      x !in d'.remove && (x in d'.add <==> Exposed(local, upstream, ignored, mapping, matches, x))
  {
    var d := Detect(local, upstream, ignored, mapping, matches);
    var rules := IgnoredAfter(ignored, d.add);
    var next := ApplySelected(Normalize(local), d.add, d.remove);
    NormalizeClean(local);
    DetectMember(local, upstream, ignored, mapping, matches, x);
    ApplySelectedMember(Normalize(local), d.add, d.remove, x);
    CleanFixed(next);
    IgnoredAfterMember(ignored, d.add, x);
    CleanFixed(rules);
    DetectMember(next, upstream, rules, mapping, matches, x);
    if Ignored(rules, x, matches) { FewerRules(ignored, d.add, x, matches); }
    ExposedIff(local, upstream, ignored, mapping, matches, x);
  }

  lemma NoMembers(xs: seq<string>)
    ensures xs == [] <==> forall x :: x !in xs
  {
    if xs != [] { assert xs[0] in xs; }
  }

  /**
   Detect, apply everything, detect again against the same upstream: nothing is pending, exactly
   when no rule that was dropped as an added model was holding another offered model back.
   */
  lemma FixpointIff(local: seq<string>, upstream: seq<string>, ignored: seq<string>, mapping: map<string, string>,
                    matches: (string, string) -> bool)
    ensures DetectAgain(local, upstream, ignored, mapping, matches) == Detection([], [])
      <==> forall x :: !Exposed(local, upstream, ignored, mapping, matches, x)
  {
    var d' := DetectAgain(local, upstream, ignored, mapping, matches);
    forall x ensures x !in d'.remove && (x in d'.add <==> Exposed(local, upstream, ignored, mapping, matches, x)) {
      DetectAgainMember(local, upstream, ignored, mapping, matches, x);
    }
    NoMembers(d'.remove);
    NoMembers(d'.add);
  }

  /** Without model names that look like regex rules, one round always reaches the fixpoint. */
  lemma Fixpoint(local: seq<string>, upstream: seq<string>, ignored: seq<string>, mapping: map<string, string>,
                 matches: (string, string) -> bool)
    requires forall x <- Normalize(upstream) :: !(REGEX_PREFIX <= x)
    ensures DetectAgain(local, upstream, ignored, mapping, matches) == Detection([], [])
  {
    // a rule that hits x and is an offered name is x itself, and then x is ignored, not missing
    forall x ensures !Exposed(local, upstream, ignored, mapping, matches, x) {}
    FixpointIff(local, upstream, ignored, mapping, matches);
  }

  /** A model named like a regex rule is added, its rule is dropped, and another model surfaces. */
  lemma RegexNamedModelBreaksFixpoint(rule: string, name: string, up: seq<string>, rules: seq<string>,
                                      matches: (string, string) -> bool)
    requires Clean(up) && Clean(rules) && up == [rule, name] && rules == [rule]
    requires RuleHits(rule, name, matches) && !RuleHits(rule, rule, matches)
    ensures name in DetectAgain([], up, rules, map[], matches).add
  {
    RuleExposes(rule, name, [], up, rules, map[], matches);
    DetectAgainMember([], up, rules, map[], matches, name);
  }

  lemma RuleExposes(rule: string, name: string, local: seq<string>, up: seq<string>, rules: seq<string>,
                    mapping: map<string, string>, matches: (string, string) -> bool)
    requires Clean(up) && Clean(rules) && up == [rule, name] && rules == [rule] && local == [] && mapping == map[]
    requires RuleHits(rule, name, matches) && !RuleHits(rule, rule, matches)
    ensures Exposed(local, up, rules, mapping, matches, name)
  {
    CleanFixed(up);
    CleanFixed(rules);
    CleanFixed(local);
    assert rule == up[0] && name == up[1] && rules[0] == rule;
    assert !Ignored(rules, rule, matches);
  }

  // ----- the channel

  /** `strings.Join(names, ",")` */
  function Join(names: seq<string>): string {
    if names == [] then "" else if |names| == 1 then names[0] else names[0] + "," + Join(names[1..])
  }

  /** `strings.Split(s, ",")` */
  function Split(s: string): (parts: seq<string>)
    ensures parts != [] && forall i :: 0 <= i < |parts| ==> ',' !in parts[i]
  {
    if s == "" then [""]
    else if s[0] == ',' then [""] + Split(s[1..])
    else var rest := Split(s[1..]); [[s[0]] + rest[0]] + rest[1..]
  }

  function TrimCommas(s: string): string {
    if s != "" && s[0] == ',' then TrimCommas(s[1..])
    else if s != "" && s[|s| - 1] == ',' then TrimCommas(s[..|s| - 1])
    else s
  }

  function GetModels(models: string): seq<string> {
    if models == "" then [] else Split(TrimCommas(models))
  }

  /** Splitting undoes joining with commas, for any text. */
  lemma {:induction false} JoinSplit(s: string)
    ensures Join(Split(s)) == s
  {
    if s != "" {
      JoinSplit(s[1..]);
      var rest := Split(s[1..]);
      if s[0] == ',' {
        assert ([""] + rest)[1..] == rest;
        assert s == "," + s[1..];
      } else {
        var all := [[s[0]] + rest[0]] + rest[1..];
        assert all[1..] == rest[1..];
        assert s == [s[0]] + s[1..];
        if |rest| > 1 { assert Join(all) == ([s[0]] + rest[0]) + "," + Join(rest[1..]); }
      }
    }
  }

  predicate Commas(s: string) { forall i :: 0 <= i < |s| ==> s[i] == ',' }

  predicate CommasAround(s: string, x: string, a: nat, b: nat) {
    a <= b <= |s| && x == s[a..b] && Commas(s[..a]) && Commas(s[b..])
  }

  lemma CommaInFront(s: string, x: string, a: nat, b: nat)
    requires s != "" && s[0] == ',' && CommasAround(s[1..], x, a, b)
    ensures CommasAround(s, x, a + 1, b + 1)
  {
    assert s[1..][a..b] == s[a + 1..b + 1] && s[1..][b..] == s[b + 1..];
    assert s[..a + 1] == [s[0]] + s[1..][..a];
  }

  lemma CommaBehind(s: string, x: string, a: nat, b: nat)
    requires s != "" && s[|s| - 1] == ',' && CommasAround(s[..|s| - 1], x, a, b)
    ensures CommasAround(s, x, a, b)
  {
    var n := |s| - 1;
    assert s[..n][a..b] == s[a..b] && s[..n][..a] == s[..a];
    assert s[b..] == s[..n][b..] + [s[n]];
  }

  /** Only commas are cut, and none is left at either end. */
  lemma {:induction false} TrimCommasCuts(s: string) returns (a: nat, b: nat)
    ensures CommasAround(s, TrimCommas(s), a, b)
    ensures TrimCommas(s) != "" ==> TrimCommas(s)[0] != ',' && TrimCommas(s)[|TrimCommas(s)| - 1] != ','
    decreases |s|
  {
    a, b := 0, |s|;
    if s != "" && s[0] == ',' {
      a, b := TrimCommasCuts(s[1..]);
      CommaInFront(s, TrimCommas(s), a, b);
      a, b := a + 1, b + 1;
    } else if s != "" && s[|s| - 1] == ',' {
      a, b := TrimCommasCuts(s[..|s| - 1]);
      CommaBehind(s, TrimCommas(s), a, b);
    }
  }

  predicate Plain(name: string) { name != "" && ',' !in name }

  lemma {:induction false} SplitHead(name: string, rest: string)
    requires ',' !in name
    ensures Split(name + "," + rest) == [name] + Split(rest)
  {
    if name == "" {
      assert name + "," + rest == "," + rest;
      assert ("," + rest)[1..] == rest;
    } else {
      SplitHead(name[1..], rest);
      assert (name + "," + rest)[1..] == name[1..] + "," + rest;
      assert name[0] in name;
      assert [name[0]] + name[1..] == name;
    }
  }

  lemma {:induction false} SplitPlain(name: string)
    requires ',' !in name
    ensures Split(name) == [name]
  {
    if name != "" {
      SplitPlain(name[1..]);
      assert name[0] in name;
      assert [name[0]] + name[1..] == name;
    }
  }

  lemma {:induction false} JoinEnds(names: seq<string>)
    requires names != [] && forall x <- names :: Plain(x)
    ensures Join(names) != "" && Join(names)[0] != ',' && Join(names)[|Join(names)| - 1] != ','
  {
    var first := names[0];
    assert Plain(first);
    assert first[0] in first && first[|first| - 1] in first;
    if |names| > 1 {
      JoinEnds(names[1..]);
      var rest := Join(names[1..]);
      assert Join(names) == first + "," + rest;
      assert Join(names)[|Join(names)| - 1] == rest[|rest| - 1];
    }
  }

  lemma {:induction false} SplitJoin(names: seq<string>)
    requires names != [] && forall x <- names :: Plain(x)
    ensures Split(Join(names)) == names
  {
    assert names[0] in names && Plain(names[0]);
    if |names| == 1 {
      SplitPlain(names[0]);
    } else {
      SplitJoin(names[1..]);
      SplitHead(names[0], Join(names[1..]));
    }
  }

  /** Storing a list of plain names and reading it back gives the same list. */
  lemma ModelsRoundTrip(names: seq<string>)
    requires forall x <- names :: Plain(x)
    ensures GetModels(Join(names)) == names
  {
    if names != [] {
      JoinEnds(names);
      SplitJoin(names);
    }
  }

  // ----- a full cycle on values

  lemma {:induction false} TrimKeepsPlain(s: string)
    requires ',' !in s
    ensures ',' !in TrimSpace(s)
  {
    TrimLeftKeepsPlain(s);
    TrimRightKeepsStart(TrimLeft(s));
  }

  lemma {:induction false} TrimLeftKeepsPlain(s: string)
    requires ',' !in s
    ensures ',' !in TrimLeft(s)
  {
    if s != "" && IsSpace(s[0]) { TrimLeftKeepsPlain(s[1..]); }
  }

  lemma {:induction false} NormalizePlain(xs: seq<string>)
    requires forall i :: 0 <= i < |xs| ==> ',' !in xs[i]
    ensures forall x <- Normalize(xs) :: Plain(x)
  {
    if xs != [] {
      NormalizePlain(xs[..|xs| - 1]);
      TrimKeepsPlain(xs[|xs| - 1]);
    }
  }

  /** Selecting everything that is pending applies everything that is pending. */
  lemma SelectAll(local: seq<string>, upstream: seq<string>, ignored: seq<string>, mapping: map<string, string>,
                  matches: (string, string) -> bool)
    ensures var d := Detect(local, upstream, ignored, mapping, matches);
      && Intersect(d.add, d.add) == d.add && Intersect([], d.add) == []
      && Subtract(Intersect(d.remove, d.remove), d.add) == d.remove
  {
    var d := Detect(local, upstream, ignored, mapping, matches);
    DetectMember(local, upstream, ignored, mapping, matches, "");
    CleanFixed(d.add);
    CleanFixed(d.remove);
    FilterAll(d.add, x => x in d.add);
    FilterAll(d.remove, x => x in d.remove);
    forall x <- d.remove ensures Outside(d.add)(x) {
      PendingDisjoint(local, upstream, ignored, mapping, matches, x);
    }
    FilterAll(d.remove, Outside(d.add));
  }

  /** The stored list reads back as the applied list, whether or not it had to be rewritten. */
  lemma StoredModels(models: string, upstream: seq<string>, ignored: seq<string>, mapping: map<string, string>,
                     matches: (string, string) -> bool)
    requires forall x <- Normalize(upstream) :: ',' !in x
    ensures var d := Detect(GetModels(models), upstream, ignored, mapping, matches);
      var origin := Normalize(GetModels(models));
      var next := ApplySelected(origin, d.add, d.remove);
      Normalize(GetModels(if next != origin then Join(next) else models)) == Normalize(next)
  {
    var local := GetModels(models);
    var d := Detect(local, upstream, ignored, mapping, matches);
    var origin := Normalize(local);
    var next := ApplySelected(origin, d.add, d.remove);
    NormalizeClean(local);
    NormalizePlain(local);
    DetectMember(local, upstream, ignored, mapping, matches, "");
    ApplySelectedMember(origin, d.add, d.remove, "");
    CleanFixed(next);
    forall x <- next ensures Plain(x) {
      ApplySelectedMember(origin, d.add, d.remove, x);
      DetectMember(local, upstream, ignored, mapping, matches, x);
      var i :| 0 <= i < |next| && next[i] == x;
    }
    ModelsRoundTrip(next);
  }

  class Channel {
    var models: string
    var ignored: seq<string>
    var lastDetected: seq<string>
    var lastRemoved: seq<string>
    const mapping: map<string, string>

    constructor (models: string, ignored: seq<string>, mapping: map<string, string>)
      ensures this.models == models && this.ignored == ignored && this.mapping == mapping
      ensures lastDetected == [] && lastRemoved == []
    {
      this.models, this.ignored, this.mapping := models, ignored, mapping;
      lastDetected, lastRemoved := [], [];
    }

    /** A detection pass without automatic application. */
    method DetectUpdates(upstream: seq<string>, matches: (string, string) -> bool)
      modifies this`lastDetected, this`lastRemoved
      ensures Detection(lastDetected, lastRemoved) == Detect(GetModels(models), upstream, ignored, mapping, matches)
    {
      var d := Detect(GetModels(models), upstream, ignored, mapping, matches);
      lastDetected, lastRemoved := d.add, d.remove;
    }

    /**
     Applies a selection of the pending changes: only pending names are applied, an addition wins
     over a removal, an added model leaves the ignore list, and the rest stays pending.
     */
    method ApplyUpdates(addInput: seq<string>, ignoreInput: seq<string>, removeInput: seq<string>)
      returns (added: seq<string>, removed: seq<string>, modelsChanged: bool)
      modifies this
      ensures added == Intersect(addInput, old(lastDetected))
      ensures removed == Subtract(Intersect(removeInput, old(lastRemoved)), added)
      ensures var origin := Normalize(GetModels(old(models)));
        var next := ApplySelected(origin, added, removed);
        && (modelsChanged <==> SetChanged(next, origin))
        && models == if modelsChanged then Join(next) else old(models)
      ensures var skip := Intersect(ignoreInput, old(lastDetected));
        && ignored == (var all := Merge(old(ignored), skip); if |added| > 0 then Subtract(all, added) else all)
        && lastDetected == Subtract(old(lastDetected), added + skip)
        && lastRemoved == Subtract(old(lastRemoved), removed)
    {
      var skip;
      added, skip, removed := SelectPending(addInput, ignoreInput, removeInput);
      modelsChanged := ApplyToModels(added, removed);
      ApplyToIgnored(added, skip);
      LeavePending(added + skip, removed);
    }

    /** The selected names that are pending. */
    method SelectPending(addInput: seq<string>, ignoreInput: seq<string>, removeInput: seq<string>)
      returns (added: seq<string>, skip: seq<string>, removed: seq<string>)
      ensures added == Intersect(addInput, lastDetected) && skip == Intersect(ignoreInput, lastDetected)
      ensures removed == Subtract(Intersect(removeInput, lastRemoved), added)
      ensures Clean(added) && Clean(removed)
    {
      var pendingAdd, pendingRemove := Normalize(lastDetected), Normalize(lastRemoved);
      NormalizedArguments(lastDetected, addInput);
      NormalizedArguments(lastDetected, ignoreInput);
      NormalizedArguments(lastRemoved, removeInput);
      SelectionClean(addInput, removeInput, pendingAdd, pendingRemove);
      added, skip := Intersect(addInput, pendingAdd), Intersect(ignoreInput, pendingAdd);
      removed := Subtract(Intersect(removeInput, pendingRemove), added);
    }

    method LeavePending(handled: seq<string>, removed: seq<string>)
      modifies this`lastDetected, this`lastRemoved
      ensures lastDetected == Subtract(old(lastDetected), handled) && lastRemoved == Subtract(old(lastRemoved), removed)
    {
      NormalizedArguments(lastDetected, handled);
      NormalizedArguments(lastRemoved, removed);
      lastDetected := Subtract(Normalize(lastDetected), handled);
      lastRemoved := Subtract(Normalize(lastRemoved), removed);
    }

    method ApplyToModels(added: seq<string>, removed: seq<string>) returns (modelsChanged: bool)
      requires Clean(added) && Clean(removed)
      modifies this`models
      ensures var origin := Normalize(GetModels(old(models)));
        var next := ApplySelected(origin, added, removed);
        && (modelsChanged <==> SetChanged(next, origin))
        && models == if modelsChanged then Join(next) else old(models)
    {
      var origin := Normalize(GetModels(models));
      var next := ApplySelected(origin, added, removed);
      NormalizeClean(GetModels(models));
      ChangedIffSetChanged(origin, added, removed);
      modelsChanged := next != origin;
      if modelsChanged { models := Join(next); }
    }

    method ApplyToIgnored(added: seq<string>, skip: seq<string>)
      modifies this`ignored
      ensures ignored == var all := Merge(old(ignored), skip); if |added| > 0 then Subtract(all, added) else all
    {
      ignored := MergeModelNames(ignored, skip);
      if |added| > 0 { ignored := Subtract(ignored, added); }
    }

    /** The list operations normalise their arguments, so normalising beforehand changes nothing. */
    lemma NormalizedArguments(xs: seq<string>, ys: seq<string>)
      ensures Intersect(ys, Normalize(xs)) == Intersect(ys, xs)
      ensures Subtract(Normalize(xs), ys) == Subtract(xs, ys)
    {
      NormalizeClean(xs);
      CleanFixed(Normalize(xs));
    }

    lemma SelectionClean(addInput: seq<string>, removeInput: seq<string>, pendingAdd: seq<string>, pendingRemove: seq<string>)
      ensures var added := Intersect(addInput, pendingAdd);
        Clean(added) && Clean(Subtract(Intersect(removeInput, pendingRemove), added))
    {
      var adds, removes := Normalize(pendingAdd), Normalize(pendingRemove);
      var added := Intersect(addInput, pendingAdd);
      NormalizeClean(addInput);
      FilterClean(Normalize(addInput), x => x in adds);
      NormalizeClean(removeInput);
      FilterClean(Normalize(removeInput), x => x in removes);
      SubtractMember(Intersect(removeInput, pendingRemove), added, "");
    }

    /**
     One full cycle: detect, apply everything, detect again. Nothing is pending afterwards when
     the upstream offers no name with a comma and none that looks like a regex rule.
     */
    method SyncCycle(upstream: seq<string>, matches: (string, string) -> bool)
      requires forall x <- Normalize(upstream) :: ',' !in x && !(REGEX_PREFIX <= x)
      modifies this
      ensures lastDetected == [] && lastRemoved == []
    {
      ghost var was, local, rules := models, GetModels(models), ignored;
      DetectUpdates(upstream, matches);
      var add, remove := lastDetected, lastRemoved;
      SelectAll(local, upstream, rules, mapping, matches);
      NormalizeClean(local);
      DetectMember(local, upstream, rules, mapping, matches, "");
      ChangedIffSetChanged(Normalize(local), add, remove);
      var added, removed, changed := ApplyUpdates(add, [], remove);
      StoredModels(was, upstream, rules, mapping, matches);
      Fixpoint(local, upstream, rules, mapping, matches);
      DetectUpdates(upstream, matches);
    }
  }
}
