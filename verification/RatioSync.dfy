/**
 Comparing local pricing with what upstream channels report: collect every (model, field) that
 might differ, find the channels that differ anywhere, then prune the rest.
 */
module RatioSync {

  datatype Field =
    | ModelRatio | CompletionRatio | CacheRatio | CreateCacheRatio | ImageRatio | AudioRatio
    | AudioCompletionRatio | ModelPrice | BillingMode | BillingExpr

  const FIELDS: seq<Field> := [ModelRatio, CompletionRatio, CacheRatio, CreateCacheRatio, ImageRatio, AudioRatio,
                               AudioCompletionRatio, ModelPrice, BillingMode, BillingExpr]

  lemma EveryField(f: Field)
    ensures exists k :: 0 <= k < |FIELDS| && FIELDS[k] == f
  {
    assert FIELDS[0] == ModelRatio && FIELDS[1] == CompletionRatio && FIELDS[2] == CacheRatio
        && FIELDS[3] == CreateCacheRatio && FIELDS[4] == ImageRatio && FIELDS[5] == AudioRatio
        && FIELDS[6] == AudioCompletionRatio && FIELDS[7] == ModelPrice && FIELDS[8] == BillingMode
        && FIELDS[9] == BillingExpr;
  }

  predicate Numeric(f: Field) { f != BillingMode && f != BillingExpr }

  /** A scalar of the decoded data; `Null` is also what a missing entry reads as. */
  datatype Value = Null | Float(amount: real) | Whole(count: int) | Text(text: string)

  const SAME := Text("same")

  datatype ModelName = ModelName(string)
  datatype ChannelName = ChannelName(string)

  /** One source of prices: a table per field. */
  type Data = map<Field, map<ModelName, Value>>

  datatype Channel = Channel(name: ChannelName, data: Data)
  datatype Input = Input(local: Data, channels: seq<Channel>)
  datatype Item = Item(current: Value, upstreams: map<ChannelName, Value>, confidence: map<ChannelName, bool>)

  type Differences = map<ModelName, map<Field, Item>>

  // ----- values

  const EPSILON: real := 0.000000001

  predicate NearlyEqual(a: real, b: real) {
    if a > b then a - b < EPSILON else b - a < EPSILON
  }

  predicate ValuesEqual(a: Value, b: Value) {
    if a.Float? && b.Float? then NearlyEqual(a.amount, b.amount) else a == b
  }

  predicate IsNumber(v: Value) { v.Float? || v.Whole? }

  function AsFloat(v: Value): real
    requires IsNumber(v)
  {
    match v case Float(x) => x case Whole(n) => n as real
  }

  function NormalizeValue(f: Field, v: Value): Value {
    if Numeric(f) && IsNumber(v) then Float(AsFloat(v)) else v
  }

  function Column(data: Data, f: Field): map<ModelName, Value> {
    if f in data then data[f] else map[]
  }

  predicate Supplies(data: Data, m: ModelName, f: Field) { m in Column(data, f) }

  function Lookup(data: Data, m: ModelName, f: Field): Value {
    if Supplies(data, m, f) then NormalizeValue(f, Column(data, f)[m]) else Null
  }

  // ----- what the passes compute, entry by entry

  /** What an item shows for a channel before pruning. */
  function Cell(local: Data, ch: Channel, m: ModelName, f: Field): Value {
    if Supplies(ch.data, m, f) then
      if ValuesEqual(Lookup(local, m, f), Lookup(ch.data, m, f)) then SAME else Lookup(ch.data, m, f)
    else if Lookup(local, m, f) == Null then SAME else Null
  }

  predicate Shows(v: Value) { v != Null && v != SAME }

  predicate Differs(local: Data, ch: Channel, m: ModelName, f: Field) {
    if Lookup(local, m, f) == Null then Shows(Cell(local, ch, m, f))
    else Supplies(ch.data, m, f) && !ValuesEqual(Lookup(local, m, f), Lookup(ch.data, m, f))
  }

  /** The entries look like the defaults 37.5 and 1 of an unconfigured source. */
  predicate Suspect(ch: Channel, m: ModelName) {
    && Supplies(ch.data, m, ModelRatio) && Supplies(ch.data, m, CompletionRatio)
    && var ratio, completion := Column(ch.data, ModelRatio)[m], Column(ch.data, CompletionRatio)[m];
       && ratio.Float? && 37.499999999 < ratio.amount < 37.500000001
       && (completion == Whole(1) || (completion.Float? && 0.999999999 < completion.amount < 1.000000001))
  }

  /** The upstream column of an item; a later channel of the same name overwrites an earlier one. */
  function Cells(local: Data, chs: seq<Channel>, m: ModelName, f: Field): map<ChannelName, Value> {
    if chs == [] then map[]
    else Cells(local, chs[..|chs| - 1], m, f)[chs[|chs| - 1].name := Cell(local, chs[|chs| - 1], m, f)]
  }

  function Confidences(chs: seq<Channel>, m: ModelName): map<ChannelName, bool> {
    if chs == [] then map[]
    else Confidences(chs[..|chs| - 1], m)[chs[|chs| - 1].name := !Suspect(chs[|chs| - 1], m)]
  }

  function FullItem(input: Input, m: ModelName, f: Field): Item {
    Item(Lookup(input.local, m, f), Cells(input.local, input.channels, m, f), Confidences(input.channels, m))
  }

  ghost predicate Included(input: Input, m: ModelName, f: Field) {
    exists i :: 0 <= i < |input.channels| &&
      if Lookup(input.local, m, f) == Null then Supplies(input.channels[i].data, m, f)
      else Differs(input.local, input.channels[i], m, f)
  }

  predicate ItemShows(item: Item, n: ChannelName) { n in item.upstreams && Shows(item.upstreams[n]) }

  /** The channel shows a value in some item. */
  ghost predicate HasDiff(input: Input, n: ChannelName) {
    exists m, f :: Included(input, m, f) && ItemShows(FullItem(input, m, f), n)
  }

  function Restrict(item: Item, names: set<ChannelName>): Item {
    Item(item.current,
         map n | n in item.upstreams && n in names :: item.upstreams[n],
         map n | n in item.confidence && n in names :: item.confidence[n])
  }

  predicate AllSame(item: Item) { forall n <- item.upstreams :: item.upstreams[n] == SAME }

  predicate Has(d: Differences, m: ModelName, f: Field) { m in d && f in d[m] }

  // ----- the loops

  method AllModels(input: Input) returns (all: set<ModelName>)
    ensures forall m, f :: Supplies(input.local, m, f) ==> m in all
    ensures forall i, m, f :: 0 <= i < |input.channels| && Supplies(input.channels[i].data, m, f) ==> m in all
  {
    all := ModelsOf(input.local);
    for i := 0 to |input.channels|
      invariant forall m, f :: Supplies(input.local, m, f) ==> m in all
      invariant forall j, m, f :: 0 <= j < i && Supplies(input.channels[j].data, m, f) ==> m in all
    {
      var more := ModelsOf(input.channels[i].data);
      all := all + more;
    }
  }

  method ModelsOf(data: Data) returns (all: set<ModelName>)
    ensures forall m, f :: Supplies(data, m, f) ==> m in all
  {
    all := {};
    for k := 0 to |FIELDS|
      invariant forall j, m :: 0 <= j < k && Supplies(data, m, FIELDS[j]) ==> m in all
    {
      all := all + Column(data, FIELDS[k]).Keys;
    }
    forall m, f | Supplies(data, m, f) ensures m in all { EveryField(f); }
  }

  /** The untrustworthy defaults (37.5 and 1) are flagged; whether both tables are non-empty does not matter. */
  method ChannelConfidence(ch: Channel, all: set<ModelName>) returns (trusted: map<ModelName, bool>)
    ensures trusted.Keys == all
    ensures forall m <- all :: trusted[m] == !Suspect(ch, m)
  {
    trusted := map[];
    var todo := all;
    while todo != {}
      invariant todo <= all && trusted.Keys == all - todo
      invariant forall m <- trusted :: trusted[m] == !Suspect(ch, m)
      decreases |todo|
    {
      var m :| m in todo;
      var distrusted := LooksUnset(ch, m);
      trusted := trusted[m := !distrusted];
      todo := todo - {m};
    }
  }

  method LooksUnset(ch: Channel, m: ModelName) returns (distrusted: bool)
    ensures distrusted == Suspect(ch, m)
  {
    var ratios, completions := Column(ch.data, ModelRatio), Column(ch.data, CompletionRatio);
    distrusted := false;
    if |ratios| > 0 && |completions| > 0 && m in ratios && m in completions {
      var ratio, completion := ratios[m], completions[m];
      if IsNumber(ratio) && IsNumber(completion) {
        WholeNumbers(completion);
        distrusted := NearlyEqual(AsFloat(ratio), 37.5) && NearlyEqual(AsFloat(completion), 1.0);
      }
    }
  }

  /** Of the whole numbers only 1 is near 1. */
  lemma WholeNumbers(v: Value)
    ensures v.Whole? ==> (NearlyEqual(v.count as real, 1.0) <==> v.count == 1)
  {
  }

  method ConfidenceTable(input: Input, all: set<ModelName>) returns (table: seq<map<ModelName, bool>>)
    ensures |table| == |input.channels|
    ensures forall i, m :: 0 <= i < |table| && m in all ==> m in table[i] && table[i][m] == !Suspect(input.channels[i], m)
  {
    table := [];
    for i := 0 to |input.channels|
      invariant |table| == i
      invariant forall j, m :: 0 <= j < i && m in all ==> m in table[j] && table[j][m] == !Suspect(input.channels[j], m)
    {
      var trusted := ChannelConfidence(input.channels[i], all);
      table := table + [trusted];
    }
  }

  /** The body of the channel loop: what the item shows, and the two flags it may raise. */
  method Compare(local: Data, ch: Channel, m: ModelName, f: Field) returns (upstream: Value, supplied: bool, differs: bool)
    ensures upstream == Cell(local, ch, m, f)
    ensures supplied == Supplies(ch.data, m, f) && differs == Differs(local, ch, m, f)
  {
    var current := Lookup(local, m, f);
    upstream, supplied, differs := Null, false, false;
    if Supplies(ch.data, m, f) {
      upstream, supplied := Lookup(ch.data, m, f), true;
      if current != Null && !ValuesEqual(current, upstream) {
        differs := true;
      } else if ValuesEqual(current, upstream) {
        upstream := SAME;
      }
    }
    if upstream == Null && current == Null { upstream := SAME; }
    if current == Null && upstream != Null && upstream != SAME { differs := true; }
  }

  lemma LoopStep(local: Data, chs: seq<Channel>, m: ModelName, f: Field, i: nat)
    requires i < |chs|
    ensures Cells(local, chs[..i + 1], m, f) == Cells(local, chs[..i], m, f)[chs[i].name := Cell(local, chs[i], m, f)]
    ensures Confidences(chs[..i + 1], m) == Confidences(chs[..i], m)[chs[i].name := !Suspect(chs[i], m)]
  {
    assert chs[..i + 1][..i] == chs[..i];
  }

  ghost predicate AnyDiffers(local: Data, chs: seq<Channel>, n: nat, m: ModelName, f: Field)
    requires n <= |chs|
  {
    n > 0 && (AnyDiffers(local, chs, n - 1, m, f) || Differs(local, chs[n - 1], m, f))
  }

  lemma {:induction false} AnyDiffersIff(local: Data, chs: seq<Channel>, n: nat, m: ModelName, f: Field)
    requires n <= |chs|
    ensures AnyDiffers(local, chs, n, m, f) <==> exists j :: 0 <= j < n && Differs(local, chs[j], m, f)
  {
    if n > 0 { AnyDiffersIff(local, chs, n - 1, m, f); }
  }

  ghost predicate AnySupplies(chs: seq<Channel>, n: nat, m: ModelName, f: Field)
    requires n <= |chs|
  {
    n > 0 && (AnySupplies(chs, n - 1, m, f) || Supplies(chs[n - 1].data, m, f))
  }

  lemma {:induction false} AnySuppliesIff(chs: seq<Channel>, n: nat, m: ModelName, f: Field)
    requires n <= |chs|
    ensures AnySupplies(chs, n, m, f) <==> exists j :: 0 <= j < n && Supplies(chs[j].data, m, f)
  {
    if n > 0 { AnySuppliesIff(chs, n - 1, m, f); }
  }

  method CompareAll(local: Data, chs: seq<Channel>, m: ModelName, f: Field)
    returns (upstreams: map<ChannelName, Value>, hasUpstreamValue: bool, hasDifference: bool)
    ensures upstreams == Cells(local, chs, m, f)
    ensures hasUpstreamValue == AnySupplies(chs, |chs|, m, f)
    ensures hasDifference == AnyDiffers(local, chs, |chs|, m, f)
  {
    upstreams, hasUpstreamValue, hasDifference := map[], false, false;
    for i := 0 to |chs|
      invariant upstreams == Cells(local, chs[..i], m, f)
      invariant hasUpstreamValue == AnySupplies(chs, i, m, f)
      invariant hasDifference == AnyDiffers(local, chs, i, m, f)
    {
      var upstream, supplied, differs := Compare(local, chs[i], m, f);
      hasUpstreamValue, hasDifference := hasUpstreamValue || supplied, hasDifference || differs;
      LoopStep(local, chs, m, f, i);
      upstreams := upstreams[chs[i].name := upstream];
    }
    assert chs[..|chs|] == chs;
  }

  method ConfidenceColumn(chs: seq<Channel>, table: seq<map<ModelName, bool>>, m: ModelName) returns (confidence: map<ChannelName, bool>)
    requires |table| == |chs|
    requires forall i :: 0 <= i < |table| ==> m in table[i] && table[i][m] == !Suspect(chs[i], m)
    ensures confidence == Confidences(chs, m)
  {
    confidence := map[];
    for i := 0 to |chs|
      invariant confidence == Confidences(chs[..i], m)
    {
      LoopStep(map[], chs, m, ModelRatio, i);
      confidence := confidence[chs[i].name := table[i][m]];
    }
    assert chs[..|chs|] == chs;
  }

  method BuildItem(input: Input, table: seq<map<ModelName, bool>>, m: ModelName, f: Field) returns (wanted: bool, item: Item)
    requires |table| == |input.channels|
    requires forall i :: 0 <= i < |table| ==> m in table[i] && table[i][m] == !Suspect(input.channels[i], m)
    ensures wanted <==> Included(input, m, f)
    ensures item == FullItem(input, m, f)
  {
    var current := Lookup(input.local, m, f);
    var upstreams, hasUpstreamValue, hasDifference := CompareAll(input.local, input.channels, m, f);
    AnyDiffersIff(input.local, input.channels, |input.channels|, m, f);
    AnySuppliesIff(input.channels, |input.channels|, m, f);
    var confidence := ConfidenceColumn(input.channels, table, m);
    wanted := if current != Null then hasDifference else hasUpstreamValue;
    item := Item(current, upstreams, confidence);
  }

  /** The rows of one model: every included field with its full item. */
  method CollectModel(input: Input, table: seq<map<ModelName, bool>>, m: ModelName) returns (row: map<Field, Item>)
    requires |table| == |input.channels|
    requires forall i :: 0 <= i < |table| ==> m in table[i] && table[i][m] == !Suspect(input.channels[i], m)
    ensures forall f :: f in row <==> Included(input, m, f)
    ensures forall f <- row :: row[f] == FullItem(input, m, f)
  {
    row := map[];
    for k := 0 to |FIELDS|
      invariant forall f :: f in row <==> Included(input, m, f) && exists j :: 0 <= j < k && FIELDS[j] == f
      invariant forall f <- row :: row[f] == FullItem(input, m, f)
    {
      var wanted, item := BuildItem(input, table, m, FIELDS[k]);
      if wanted { row := row[FIELDS[k] := item]; }
    }
    forall f ensures f in row <==> Included(input, m, f) { EveryField(f); }
  }

  method Collect(input: Input) returns (d: Differences)
    ensures forall m, f :: Has(d, m, f) <==> Included(input, m, f)
    ensures forall m, f :: Has(d, m, f) ==> d[m][f] == FullItem(input, m, f)
  {
    var all := AllModels(input);
    var table := ConfidenceTable(input, all);
    d := map[];
    var todo := all;
    while todo != {}
      invariant todo <= all && forall m <- todo :: m !in d
      invariant forall m, f :: Has(d, m, f) <==> m in all - todo && Included(input, m, f)
      invariant forall m, f :: Has(d, m, f) ==> d[m][f] == FullItem(input, m, f)
      decreases |todo|
    {
      var m :| m in todo;
      var row := CollectModel(input, table, m);
      ghost var before := d;
      if row != map[] { d := d[m := row]; }
      forall m', f ensures Has(d, m', f) <==> if m' == m then f in row else Has(before, m', f) {}
      todo := todo - {m};
    }
  }

  method ItemDiffs(item: Item) returns (names: set<ChannelName>)
    ensures forall n :: n in names <==> ItemShows(item, n)
  {
    names := {};
    var todo := item.upstreams.Keys;
    while todo != {}
      invariant todo <= item.upstreams.Keys
      invariant forall n :: n in names <==> n !in todo && ItemShows(item, n)
      decreases |todo|
    {
      var n :| n in todo;
      if item.upstreams[n] != Null && item.upstreams[n] != SAME { names := names + {n}; }
      todo := todo - {n};
    }
  }

  method RowDiffs(row: map<Field, Item>) returns (names: set<ChannelName>)
    ensures forall n :: n in names <==> exists f :: f in row && ItemShows(row[f], n)
  {
    names := {};
    var todo := row.Keys;
    while todo != {}
      invariant todo <= row.Keys
      invariant forall n :: n in names <==> exists f :: f in row && f !in todo && ItemShows(row[f], n)
      decreases |todo|
    {
      var f :| f in todo;
      var more := ItemDiffs(row[f]);
      names := names + more;
      todo := todo - {f};
    }
  }

  method ChannelsWithDiff(d: Differences) returns (names: set<ChannelName>)
    ensures forall n :: n in names <==> exists m, f :: Has(d, m, f) && ItemShows(d[m][f], n)
  {
    names := {};
    var todo := d.Keys;
    while todo != {}
      invariant todo <= d.Keys
      invariant forall n :: n in names <==> exists m, f :: Has(d, m, f) && m !in todo && ItemShows(d[m][f], n)
      decreases |todo|
    {
      var m :| m in todo;
      var more := RowDiffs(d[m]);
      ghost var before, rest := names, todo;
      names := names + more;
      todo := todo - {m};
      forall n ensures n in names <==> exists m', f :: Has(d, m', f) && m' !in todo && ItemShows(d[m'][f], n) {
        if n in more {
          var f :| f in d[m] && ItemShows(d[m][f], n);
          assert Has(d, m, f);
        }
      }
    }
  }

  /** Deletes the channels that differ nowhere, and says whether anything but "same" is left. */
  method PruneItem(item: Item, names: set<ChannelName>) returns (left: Item, keep: bool)
    requires item.confidence.Keys == item.upstreams.Keys
    ensures left == Restrict(item, names)
    ensures keep <==> !AllSame(left)
  {
    left := item;
    var todo := item.upstreams.Keys;
    keep := false;
    while todo != {}
      invariant todo <= item.upstreams.Keys && left.current == item.current
      invariant left.upstreams == map n | n in item.upstreams && (n in todo || n in names) :: item.upstreams[n]
      invariant left.confidence == map n | n in item.confidence && (n in todo || n in names) :: item.confidence[n]
      decreases |todo|
    {
      var n :| n in todo;
      if n !in names {
        left := left.(upstreams := left.upstreams - {n}, confidence := left.confidence - {n});
      }
      todo := todo - {n};
    }
    keep := exists n <- left.upstreams :: left.upstreams[n] != SAME;
  }

  method PruneRow(row: map<Field, Item>, names: set<ChannelName>) returns (left: map<Field, Item>)
    requires forall f <- row :: row[f].confidence.Keys == row[f].upstreams.Keys
    ensures forall f :: f in left <==> f in row && !AllSame(Restrict(row[f], names))
    ensures forall f <- left :: left[f] == Restrict(row[f], names)
  {
    left := row;
    var todo := row.Keys;
    while todo != {}
      invariant todo <= row.Keys
      invariant forall f :: f in left <==> f in row && (f in todo || !AllSame(Restrict(row[f], names)))
      invariant forall f <- left :: left[f] == if f in todo then row[f] else Restrict(row[f], names)
      decreases |todo|
    {
      var f :| f in todo;
      var item, keep := PruneItem(row[f], names);
      if keep { left := left[f := item]; } else { left := left - {f}; }
      todo := todo - {f};
    }
  }

  method Prune(d: Differences, names: set<ChannelName>) returns (left: Differences)
    requires forall m, f :: Has(d, m, f) ==> d[m][f].confidence.Keys == d[m][f].upstreams.Keys
    ensures forall m, f :: Has(left, m, f) <==> Has(d, m, f) && !AllSame(Restrict(d[m][f], names))
    ensures forall m, f :: Has(left, m, f) ==> Has(d, m, f) && left[m][f] == Restrict(d[m][f], names)
    ensures forall m <- left :: left[m] != map[]
  {
    left := map[];
    var todo := d.Keys;
    while todo != {}
      invariant todo <= d.Keys && left.Keys <= d.Keys - todo
      invariant forall m, f :: Has(left, m, f) <==> Has(d, m, f) && m !in todo && !AllSame(Restrict(d[m][f], names))
      invariant forall m, f :: Has(left, m, f) ==> left[m][f] == Restrict(d[m][f], names)
      invariant forall m <- left :: left[m] != map[]
      decreases |todo|
    {
      var m :| m in todo;
      forall f | f in d[m] ensures d[m][f].confidence.Keys == d[m][f].upstreams.Keys { assert Has(d, m, f); }
      var row := PruneRow(d[m], names);
      ghost var before := left;
      if row != map[] { left := left[m := row]; }
      forall m', f ensures Has(left, m', f) <==> if m' == m then f in row else Has(before, m', f) {}
      todo := todo - {m};
    }
  }

  // ----- the result

  lemma {:induction false} CellsKeys(local: Data, chs: seq<Channel>, m: ModelName, f: Field)
    ensures forall n :: n in Cells(local, chs, m, f) <==> exists i :: 0 <= i < |chs| && chs[i].name == n
    ensures Confidences(chs, m).Keys == Cells(local, chs, m, f).Keys
  {
    if chs != [] { CellsKeys(local, chs[..|chs| - 1], m, f); }
  }

  /** An item is kept when, among the channels that differ somewhere, one does not read "same" here. */
  ghost predicate Kept(input: Input, names: set<ChannelName>, m: ModelName, f: Field) {
    Included(input, m, f) && !AllSame(Restrict(FullItem(input, m, f), names))
  }

  /** buildDifferences on any input. */
  method BuildDifferences(input: Input) returns (d: Differences, ghost names: set<ChannelName>)
    ensures forall n :: n in names <==> HasDiff(input, n)
    ensures forall m, f :: Has(d, m, f) <==> Kept(input, names, m, f)
    ensures forall m, f :: Has(d, m, f) ==> d[m][f] == Restrict(FullItem(input, m, f), names)
    ensures forall m <- d :: d[m] != map[]
  {
    var all := Collect(input);
    var differing := ChannelsWithDiff(all);
    names := differing;
    forall m, f | Has(all, m, f) ensures all[m][f].confidence.Keys == all[m][f].upstreams.Keys {
      CellsKeys(input.local, input.channels, m, f);
    }
    d := Prune(all, differing);
    forall n ensures n in names <==> HasDiff(input, n) {
      if HasDiff(input, n) {
        var m, f :| Included(input, m, f) && ItemShows(FullItem(input, m, f), n);
        assert Has(all, m, f);
      }
    }
  }

  // ----- what that means for well-formed input

  predicate DistinctNames(chs: seq<Channel>) {
    forall i, j :: 0 <= i < j < |chs| ==> chs[i].name != chs[j].name
  }

  /** No entry is null and none is literally "same". */
  ghost predicate Plain(data: Data) {
    forall m, f :: Supplies(data, m, f) ==> Shows(Column(data, f)[m])
  }

  ghost predicate WellFormed(input: Input) {
    && DistinctNames(input.channels) && Plain(input.local)
    && forall i :: 0 <= i < |input.channels| ==> Plain(input.channels[i].data)
  }

  /** A billionth or more apart. */
  predicate Gap(x: real, y: real) { x - y >= 0.000000001 || y - x >= 0.000000001 }

  /**
   Two entries of a field differ: fractions by a billionth or more, and in a price field a whole
   number counts as itself; anything else when it is not the same entry.
   */
  predicate EntriesDiffer(f: Field, a: Value, b: Value) {
    match (a, b)
    case (Float(x), Float(y)) => Gap(x, y)
    case (Float(x), Whole(n)) => f == BillingMode || f == BillingExpr || Gap(x, n as real)
    case (Whole(n), Float(y)) => f == BillingMode || f == BillingExpr || Gap(n as real, y)
    case _ => a != b
  }

  /** What is shown for an entry: in a price field a whole number reads as a fraction. */
  function EntryShown(f: Field, v: Value): Value {
    if v.Whole? && f != BillingMode && f != BillingExpr then Float(v.count as real) else v
  }

  lemma EntriesCompared(f: Field, a: Value, b: Value)
    ensures EntriesDiffer(f, a, b) <==> !ValuesEqual(NormalizeValue(f, a), NormalizeValue(f, b))
    ensures NormalizeValue(f, a) == EntryShown(f, a)
  {
  }

  /** The channel has a price that is absent locally or differs from the local one. */
  predicate Genuine(local: Data, data: Data, m: ModelName, f: Field) {
    && Supplies(data, m, f)
    && (Supplies(local, m, f) ==> EntriesDiffer(f, Column(local, f)[m], Column(data, f)[m]))
  }

  lemma GenuineCompared(local: Data, data: Data, m: ModelName, f: Field)
    ensures Genuine(local, data, m, f) <==>
      Supplies(data, m, f) && (Supplies(local, m, f) ==> !ValuesEqual(Lookup(local, m, f), Lookup(data, m, f)))
    ensures Supplies(data, m, f) ==> Lookup(data, m, f) == EntryShown(f, Column(data, f)[m])
    ensures Supplies(local, m, f) ==> Lookup(local, m, f) == EntryShown(f, Column(local, f)[m])
  {
    if Supplies(data, m, f) {
      EntriesCompared(f, Column(data, f)[m], Column(data, f)[m]);
      if Supplies(local, m, f) { EntriesCompared(f, Column(local, f)[m], Column(data, f)[m]); }
    }
  }

  ghost predicate GenuineSomewhere(local: Data, data: Data) {
    exists m, f :: Genuine(local, data, m, f)
  }

  /** What an item shows: the differing price, "same", or nothing where only the local side has one. */
  function Shown(local: Data, data: Data, m: ModelName, f: Field): Value {
    if Genuine(local, data, m, f) then EntryShown(f, Column(data, f)[m])
    else if Supplies(local, m, f) && !Supplies(data, m, f) then Null
    else SAME
  }

  lemma PlainLookup(data: Data, m: ModelName, f: Field)
    requires Plain(data)
    ensures Supplies(data, m, f) <==> Lookup(data, m, f) != Null
    ensures Lookup(data, m, f) != SAME
  {
  }

  lemma CellShown(local: Data, ch: Channel, m: ModelName, f: Field)
    requires Plain(local) && Plain(ch.data)
    ensures Cell(local, ch, m, f) == Shown(local, ch.data, m, f)
    ensures Shows(Cell(local, ch, m, f)) <==> Genuine(local, ch.data, m, f)
    ensures Differs(local, ch, m, f) <==> Genuine(local, ch.data, m, f)
  {
    PlainLookup(local, m, f);
    PlainLookup(ch.data, m, f);
    GenuineCompared(local, ch.data, m, f);
  }

  lemma {:induction false} CellsAt(local: Data, chs: seq<Channel>, m: ModelName, f: Field, i: nat)
    requires DistinctNames(chs) && i < |chs|
    ensures chs[i].name in Cells(local, chs, m, f) && Cells(local, chs, m, f)[chs[i].name] == Cell(local, chs[i], m, f)
    ensures chs[i].name in Confidences(chs, m) && Confidences(chs, m)[chs[i].name] == !Suspect(chs[i], m)
  {
    if i < |chs| - 1 { CellsAt(local, chs[..|chs| - 1], m, f, i); }
  }

  ghost predicate NoNulls(data: Data) {
    forall m, f :: Supplies(data, m, f) ==> Column(data, f)[m] != Null
  }

  lemma IncludedIffGenuine(input: Input, m: ModelName, f: Field)
    requires NoNulls(input.local)
    ensures Included(input, m, f) <==> exists i :: 0 <= i < |input.channels| && Genuine(input.local, input.channels[i].data, m, f)
  {
    assert Supplies(input.local, m, f) <==> Lookup(input.local, m, f) != Null;
    forall i | 0 <= i < |input.channels|
      ensures Genuine(input.local, input.channels[i].data, m, f) <==>
        && Supplies(input.channels[i].data, m, f)
        && (Supplies(input.local, m, f) ==> Differs(input.local, input.channels[i], m, f))
    {
      GenuineCompared(input.local, input.channels[i].data, m, f);
    }
  }

  lemma ItemShowsIffGenuine(input: Input, m: ModelName, f: Field, i: nat)
    requires WellFormed(input) && i < |input.channels|
    ensures ItemShows(FullItem(input, m, f), input.channels[i].name) <==> Genuine(input.local, input.channels[i].data, m, f)
  {
    CellsAt(input.local, input.channels, m, f, i);
    CellShown(input.local, input.channels[i], m, f);
  }

  /** The channels that survive pruning are those with a genuine difference somewhere. */
  lemma HasDiffIffGenuine(input: Input, i: nat)
    requires WellFormed(input) && i < |input.channels|
    ensures HasDiff(input, input.channels[i].name) <==> GenuineSomewhere(input.local, input.channels[i].data)
  {
    var n, data := input.channels[i].name, input.channels[i].data;
    if HasDiff(input, n) {
      var m, f :| Included(input, m, f) && ItemShows(FullItem(input, m, f), n);
      ItemShowsIffGenuine(input, m, f, i);
    }
    if GenuineSomewhere(input.local, data) {
      var m, f :| Genuine(input.local, data, m, f);
      ItemShowsIffGenuine(input, m, f, i);
      IncludedIffGenuine(input, m, f);
      assert Included(input, m, f) && ItemShows(FullItem(input, m, f), n);
    }
  }

  /** The last pruning pass never deletes an item. */
  lemma NothingDropped(input: Input, names: set<ChannelName>, m: ModelName, f: Field)
    requires WellFormed(input) && Included(input, m, f)
    requires forall n :: n in names <==> HasDiff(input, n)
    ensures Kept(input, names, m, f)
  {
    IncludedIffGenuine(input, m, f);
    var i :| 0 <= i < |input.channels| && Genuine(input.local, input.channels[i].data, m, f);
    var n := input.channels[i].name;
    ItemShowsIffGenuine(input, m, f, i);
    assert HasDiff(input, n);
    assert Restrict(FullItem(input, m, f), names).upstreams[n] != SAME;
  }

  /**
   For well-formed input: exactly the pairs where some channel genuinely differs are reported, and
   every item lists exactly the channels that genuinely differ somewhere, each with what it says.
   */
  method Report(input: Input) returns (d: Differences)
    requires WellFormed(input)
    ensures forall m, f :: Has(d, m, f) <==>
      exists i :: 0 <= i < |input.channels| && Genuine(input.local, input.channels[i].data, m, f)
    ensures forall m, f :: Has(d, m, f) ==> Lists(input, d[m][f], m, f)
    ensures forall m <- d :: d[m] != map[]
  {
    ghost var names;
    d, names := BuildDifferences(input);
    forall m, f
      ensures Has(d, m, f) <==> exists i :: 0 <= i < |input.channels| && Genuine(input.local, input.channels[i].data, m, f)
    {
      IncludedIffGenuine(input, m, f);
      if Included(input, m, f) { NothingDropped(input, names, m, f); }
    }
    forall m, f | Has(d, m, f) ensures Lists(input, d[m][f], m, f) { RestrictedLists(input, names, m, f); }
  }

  /** What a reported item holds. */
  ghost predicate Lists(input: Input, item: Item, m: ModelName, f: Field) {
    && item.current == (if Supplies(input.local, m, f) then EntryShown(f, Column(input.local, f)[m]) else Null)
    && item.confidence.Keys == item.upstreams.Keys
    && (forall n <- item.upstreams :: exists i :: 0 <= i < |input.channels| && input.channels[i].name == n)
    && (forall i :: 0 <= i < |input.channels| ==> ListsChannel(input.local, item, input.channels[i], m, f))
  }

  ghost predicate ListsChannel(local: Data, item: Item, ch: Channel, m: ModelName, f: Field) {
    && (ch.name in item.upstreams <==> GenuineSomewhere(local, ch.data))
    && (ch.name in item.upstreams ==>
          item.upstreams[ch.name] == Shown(local, ch.data, m, f)
          && ch.name in item.confidence && item.confidence[ch.name] == !Suspect(ch, m))
  }

  lemma RestrictedLists(input: Input, names: set<ChannelName>, m: ModelName, f: Field)
    requires WellFormed(input)
    requires forall n :: n in names <==> HasDiff(input, n)
    ensures Lists(input, Restrict(FullItem(input, m, f), names), m, f)
  {
    var item := Restrict(FullItem(input, m, f), names);
    CellsKeys(input.local, input.channels, m, f);
    GenuineCompared(input.local, input.local, m, f);
    forall i | 0 <= i < |input.channels| ensures ListsChannel(input.local, item, input.channels[i], m, f) {
      CellsAt(input.local, input.channels, m, f, i);
      CellShown(input.local, input.channels[i], m, f);
      HasDiffIffGenuine(input, i);
    }
  }

  // ----- entries that are null

  /** No entry is literally "same". */
  ghost predicate NoSameText(data: Data) {
    forall m, f :: Supplies(data, m, f) ==> Column(data, f)[m] != SAME
  }

  /** Nulls are allowed in the channels, and only there. */
  ghost predicate NullsUpstream(input: Input) {
    && DistinctNames(input.channels) && NoNulls(input.local) && NoSameText(input.local)
    && forall i :: 0 <= i < |input.channels| ==> NoSameText(input.channels[i].data)
  }

  /** A genuine difference that is a price and not a null. */
  ghost predicate PricedSomewhere(local: Data, data: Data) {
    exists m, f :: Genuine(local, data, m, f) && Column(data, f)[m] != Null
  }

  /** The item shows something other than "same" for the channel. */
  predicate NotSame(local: Data, data: Data, m: ModelName, f: Field) {
    if Supplies(local, m, f) then Supplies(data, m, f) ==> EntriesDiffer(f, Column(local, f)[m], Column(data, f)[m])
    else Supplies(data, m, f) && Column(data, f)[m] != Null
  }

  /** An included item is kept if and only if a surviving channel does not read "same" there. */
  lemma KeptIff(input: Input, names: set<ChannelName>, m: ModelName, f: Field)
    requires DistinctNames(input.channels) && Included(input, m, f)
    ensures Kept(input, names, m, f) <==>
      exists i :: 0 <= i < |input.channels| && input.channels[i].name in names && Cell(input.local, input.channels[i], m, f) != SAME
  {
    var item := Restrict(FullItem(input, m, f), names);
    CellsKeys(input.local, input.channels, m, f);
    forall i | 0 <= i < |input.channels| && input.channels[i].name in names
      ensures input.channels[i].name in item.upstreams
      ensures item.upstreams[input.channels[i].name] == Cell(input.local, input.channels[i], m, f)
    {
      CellsAt(input.local, input.channels, m, f, i);
    }
  }

  lemma CellWithNulls(input: Input, i: nat, m: ModelName, f: Field)
    requires NullsUpstream(input) && i < |input.channels|
    ensures var ch := input.channels[i];
      && (Cell(input.local, ch, m, f) != SAME <==> NotSame(input.local, ch.data, m, f))
      && (Shows(Cell(input.local, ch, m, f)) <==> Genuine(input.local, ch.data, m, f) && Column(ch.data, f)[m] != Null)
  {
    GenuineCompared(input.local, input.channels[i].data, m, f);
    var data := input.channels[i].data;
    assert Supplies(input.local, m, f) ==> Column(input.local, f)[m] != Null && Column(input.local, f)[m] != SAME;
    assert Supplies(data, m, f) ==> Column(data, f)[m] != SAME;
  }

  /** A channel survives pruning if and only if it has a genuine difference that is not a null. */
  lemma HasDiffIffPriced(input: Input, i: nat)
    requires NullsUpstream(input) && i < |input.channels|
    ensures HasDiff(input, input.channels[i].name) <==> PricedSomewhere(input.local, input.channels[i].data)
  {
    var n, data := input.channels[i].name, input.channels[i].data;
    if HasDiff(input, n) {
      var m, f :| Included(input, m, f) && ItemShows(FullItem(input, m, f), n);
      CellsAt(input.local, input.channels, m, f, i);
      CellWithNulls(input, i, m, f);
    }
    if PricedSomewhere(input.local, data) {
      var m, f :| Genuine(input.local, data, m, f) && Column(data, f)[m] != Null;
      CellsAt(input.local, input.channels, m, f, i);
      CellWithNulls(input, i, m, f);
      IncludedIffGenuine(input, m, f);
      assert Included(input, m, f) && ItemShows(FullItem(input, m, f), n);
    }
  }

  /**
   With nulls among the upstream entries, a pair is reported if and only if some channel genuinely
   differs there, and some channel with a real price difference somewhere does not read "same".
   */
  lemma ReportedIff(input: Input, names: set<ChannelName>, m: ModelName, f: Field)
    requires NullsUpstream(input)
    requires forall n :: n in names <==> HasDiff(input, n)
    ensures Kept(input, names, m, f) <==>
      && (exists i :: 0 <= i < |input.channels| && Genuine(input.local, input.channels[i].data, m, f))
      && (exists i :: 0 <= i < |input.channels|
            && PricedSomewhere(input.local, input.channels[i].data) && NotSame(input.local, input.channels[i].data, m, f))
  {
    IncludedIffGenuine(input, m, f);
    if Included(input, m, f) { KeptIff(input, names, m, f); }
    forall i | 0 <= i < |input.channels|
      ensures input.channels[i].name in names <==> PricedSomewhere(input.local, input.channels[i].data)
      ensures Cell(input.local, input.channels[i], m, f) != SAME <==> NotSame(input.local, input.channels[i].data, m, f)
    {
      HasDiffIffPriced(input, i);
      CellWithNulls(input, i, m, f);
    }
  }

  /** Why null entries are excluded: a channel whose only entry is a null price is reported nowhere. */
  lemma NullPriceIsDropped(input: Input, names: set<ChannelName>, ch: Channel, m: ModelName)
    requires input.local == map[ModelRatio := map[m := Float(1.0)]]
    requires ch.data == map[ModelRatio := map[m := Null]] && input.channels == [ch]
    requires forall n :: n in names <==> HasDiff(input, n)
    ensures Genuine(input.local, ch.data, m, ModelRatio)
    ensures forall m', f :: !Kept(input, names, m', f)
  {
    OnlyNull(input, ch, m);
    forall m', f ensures !Kept(input, names, m', f) {
      ReportedIff(input, names, m', f);
      assert forall i :: 0 <= i < |input.channels| ==> input.channels[i] == ch;
    }
  }

  lemma OnlyNull(input: Input, ch: Channel, m: ModelName)
    requires input.local == map[ModelRatio := map[m := Float(1.0)]]
    requires ch.data == map[ModelRatio := map[m := Null]] && input.channels == [ch]
    ensures NullsUpstream(input) && !PricedSomewhere(input.local, ch.data)
    ensures Genuine(input.local, ch.data, m, ModelRatio)
  {
  }
}
