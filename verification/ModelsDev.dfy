/**
 Choosing one price per model from the models.dev catalogue, where several providers may offer the
 same model: a fold with a near-equality that is not transitive.
 */
module ModelsDev {
  import opened Basics
  import RatioSync

  /** An optional floating-point number: absent, NaN or infinite, or a finite value. */
  datatype Amount = Absent | NotFinite | Finite(value: real)

  datatype Cost = Cost(input: Amount, output: Amount, cacheRead: Amount)

  datatype Candidate = Candidate(provider: string, input: real, output: Amount, cacheRead: Amount)

  datatype ModelName = ModelName(string)

  type Catalogue = map<string, map<ModelName, Cost>>

  predicate NonNegative(a: Amount) { a.Finite? && a.value >= 0.0 }

  function BuildCandidate(provider: string, cost: Cost): Option<Candidate> {
    if !NonNegative(cost.input) then None
    else if !cost.output.Absent? && !NonNegative(cost.output) then None
    else if cost.input.value == 0.0 && cost.output.Finite? && cost.output.value > 0.0 then None
    else Some(Candidate(provider, cost.input.value, cost.output,
                        if NonNegative(cost.cacheRead) then cost.cacheRead else Absent))
  }

  /** A cost that can be turned into ratios: no negative or undefined price, and no free input with a priced output. */
  predicate Usable(cost: Cost) {
    && cost.input.Finite? && cost.input.value >= 0.0
    && (cost.output.Absent? ||
        (cost.output.Finite? && cost.output.value >= 0.0 && (cost.output.value > 0.0 ==> cost.input.value > 0.0)))
  }

  /** The candidate carries the prices of the cost; an unusable cache price is dropped. */
  predicate Carries(c: Candidate, cost: Cost) {
    && cost.input == Finite(c.input) && c.output == cost.output
    && c.cacheRead == if cost.cacheRead.Finite? && cost.cacheRead.value >= 0.0 then cost.cacheRead else Absent
  }

  lemma BuildCandidateIs(provider: string, cost: Cost)
    ensures var c := BuildCandidate(provider, cost);
      (c.Some? <==> Usable(cost)) && (c.Some? ==> c.value.provider == provider && Carries(c.value, cost))
  {
  }

  /** Go's string order. */
  predicate Less(a: string, b: string) {
    b != "" && (a == "" || a[0] < b[0] || (a[0] == b[0] && Less(a[1..], b[1..])))
  }

  lemma {:induction false} LessAsymmetric(a: string, b: string)
    requires Less(a, b)
    ensures !Less(b, a)
  {
    if a != "" && a[0] == b[0] { LessAsymmetric(a[1..], b[1..]); }
  }

  predicate ShouldReplace(current: Candidate, next: Candidate) {
    if (current.input > 0.0) != (next.input > 0.0) then next.input > 0.0
    else if next.input > 0.0 && !RatioSync.NearlyEqual(next.input, current.input) then next.input < current.input
    else Less(next.provider, current.provider)
  }

  // ----- the fold over the offers for one model

  function Fold(offers: seq<Candidate>): Option<Candidate> {
    if offers == [] then None else
    var current, next := Fold(offers[..|offers| - 1]), offers[|offers| - 1];
    if current.None? || ShouldReplace(current.value, next) then Some(next) else current
  }

  predicate SortedByProvider(offers: seq<Candidate>) {
    forall i, j :: 0 <= i < j < |offers| ==> Less(offers[i].provider, offers[j].provider)
  }

  predicate Offered(offers: seq<Candidate>) {
    forall i :: 0 <= i < |offers| ==> offers[i].input >= 0.0
  }

  /**
   The choice at position `k`: a free offer is chosen only when all are free, and then the first;
   a priced one is strictly cheaper than every earlier priced offer and no later one undercuts it
   by epsilon or more.
   */
  predicate Best(offers: seq<Candidate>, k: nat)
    requires k < |offers|
  {
    if offers[k].input == 0.0 then k == 0 && forall i :: 0 <= i < |offers| ==> offers[i].input == 0.0
    else
      && (forall i :: 0 <= i < k && offers[i].input > 0.0 ==> offers[i].input > offers[k].input)
      && (forall i :: k < i < |offers| && offers[i].input > 0.0 ==> offers[i].input > offers[k].input - RatioSync.EPSILON)
  }

  lemma {:induction false} FoldBest(offers: seq<Candidate>) returns (k: nat)
    requires offers != [] && SortedByProvider(offers) && Offered(offers)
    ensures k < |offers| && Fold(offers) == Some(offers[k]) && Best(offers, k)
  {
    var n := |offers| - 1;
    if n == 0 {
      k := 0;
      assert Fold(offers[..0]) == None;
    } else {
      var init := offers[..n];
      k := FoldBest(init);
      assert Less(init[k].provider, offers[n].provider);
      LessAsymmetric(init[k].provider, offers[n].provider);
      if ShouldReplace(init[k], offers[n]) {
        forall i | 0 <= i < n && init[i].input > 0.0 ensures init[i].input > offers[n].input {}
        k := n;
      }
    }
  }

  /**
   What the documentation promises, up to epsilon: the choice is one of the offers; it is free only
   when every offer is; otherwise no priced offer is cheaper by epsilon or more.
   */
  lemma CheapestNonZero(offers: seq<Candidate>)
    requires offers != [] && SortedByProvider(offers) && Offered(offers)
    ensures Fold(offers).Some? && Fold(offers).value in offers
    ensures Fold(offers).value.input == 0.0 <==> forall i :: 0 <= i < |offers| ==> offers[i].input == 0.0
    ensures Fold(offers).value.input > 0.0 ==>
      forall i :: 0 <= i < |offers| && offers[i].input > 0.0 ==> offers[i].input > Fold(offers).value.input - RatioSync.EPSILON
  {
    var k := FoldBest(offers);
    assert offers[k] in offers;
    forall i | 0 <= i < |offers| && offers[i].input > 0.0 && offers[k].input > 0.0
      ensures offers[i].input > offers[k].input - RatioSync.EPSILON
    {
      BestBound(offers, k, i);
    }
  }

  lemma BestBound(offers: seq<Candidate>, k: nat, i: nat)
    requires k < |offers| && i < |offers| && Best(offers, k) && offers[k].input > 0.0 && offers[i].input > 0.0
    ensures offers[i].input > offers[k].input - RatioSync.EPSILON
  {
  }

  /** Once a priced choice is undercut by epsilon nowhere later, it stays. */
  lemma {:induction false} FoldStays(offers: seq<Candidate>, n: nat, c: Candidate)
    requires SortedByProvider(offers) && Offered(offers) && 0 < n <= |offers|
    requires Fold(offers[..n]) == Some(c) && c.input > 0.0 && c in offers[..n]
    requires forall i :: n <= i < |offers| && offers[i].input > 0.0 ==> offers[i].input > c.input - RatioSync.EPSILON
    ensures Fold(offers) == Some(c)
  {
    var m := |offers| - 1;
    if n == |offers| {
      assert offers[..n] == offers;
    } else {
      var init := offers[..m];
      assert init[..n] == offers[..n];
      FoldStays(init, n, c);
      var k :| 0 <= k < n && offers[..n][k] == c;
      assert Less(offers[k].provider, offers[m].provider);
      LessAsymmetric(offers[k].provider, offers[m].provider);
    }
  }

  /** The first of the cheapest priced offers. */
  predicate FirstCheapest(offers: seq<Candidate>, j: nat) {
    && j < |offers| && offers[j].input > 0.0
    && (forall i :: 0 <= i < j && offers[i].input > 0.0 ==> offers[i].input > offers[j].input)
    && (forall i :: j <= i < |offers| && offers[i].input > 0.0 ==> offers[i].input >= offers[j].input)
  }

  /**
   The cheapest price is chosen if and only if, when its first offer comes up, the choice so far
   is none, free, or dearer by at least epsilon.
   */
  lemma CheapestIff(offers: seq<Candidate>, j: nat)
    requires SortedByProvider(offers) && Offered(offers) && FirstCheapest(offers, j)
    ensures Fold(offers).Some?
    ensures Fold(offers).value.input == offers[j].input <==>
      var before := Fold(offers[..j]);
      before.None? || before.value.input == 0.0 || before.value.input >= offers[j].input + RatioSync.EPSILON
  {
    var c := ChoiceAtCheapest(offers, j);
    FoldStays(offers, j + 1, c);
  }

  /** The choice right after the first cheapest offer. */
  lemma ChoiceAtCheapest(offers: seq<Candidate>, j: nat) returns (c: Candidate)
    requires SortedByProvider(offers) && Offered(offers) && FirstCheapest(offers, j)
    ensures Fold(offers[..j + 1]) == Some(c) && c in offers[..j + 1]
    ensures offers[j].input <= c.input < offers[j].input + RatioSync.EPSILON
    ensures c.input == offers[j].input <==>
      var before := Fold(offers[..j]);
      before.None? || before.value.input == 0.0 || before.value.input >= offers[j].input + RatioSync.EPSILON
  {
    var next := offers[..j + 1];
    assert next[..j] == offers[..j] && next[j] == offers[j];
    c := offers[j];
    if j > 0 {
      var k := FoldBest(offers[..j]);
      assert Less(offers[k].provider, offers[j].provider);
      LessAsymmetric(offers[k].provider, offers[j].provider);
      assert next[k] == offers[k];
      if !ShouldReplace(offers[k], offers[j]) { c := offers[k]; }
    }
  }

  /** Two offers in provider order, less than epsilon apart: the dearer one is chosen. */
  lemma SortedMissesCheapest(a: Candidate, b: Candidate, offers: seq<Candidate>)
    requires a.provider == "a" && b.provider == "b" && offers == [a, b]
    requires a.input == 1.0 + RatioSync.EPSILON / 2.0 && b.input == 1.0
    ensures SortedByProvider(offers) && Offered(offers)
    ensures Fold(offers) == Some(a) && b.input < a.input
  {
    assert Less("a", "b");
    LessAsymmetric("a", "b");
    assert offers[..1] == [a] && [a][..0] == [];
    assert Fold([a]) == Some(a);
  }

  /**
   The order matters: three offers in descending provider order, each near the one before, drift
   to the dearest although the first is cheaper by more than epsilon.
   */
  lemma UnsortedDrifts(a: Candidate, b: Candidate, c: Candidate)
    requires a.provider == "a" && b.provider == "b" && c.provider == "c"
    requires c.input == 1.0 && b.input == 1.0 + 0.6 * RatioSync.EPSILON && a.input == 1.0 + 1.2 * RatioSync.EPSILON
    ensures Fold([c, b, a]) == Some(a) && c.input < a.input - RatioSync.EPSILON
  {
    assert Less("b", "c") && Less("a", "b");
    assert [c, b, a][..2] == [c, b] && [c, b][..1] == [c] && [c][..0] == [];
    assert Fold([c]) == Some(c);
    assert Fold([c, b]) == Some(b);
  }

  // ----- the selection loop

  /** The usable offers for a model, in provider order. */
  function Offers(data: Catalogue, providers: seq<string>, m: ModelName): seq<Candidate> {
    if providers == [] then [] else
    var p := providers[|providers| - 1];
    var init := Offers(data, providers[..|providers| - 1], m);
    if p in data && m in data[p] && BuildCandidate(p, data[p][m]).Some?
    then init + [BuildCandidate(p, data[p][m]).value] else init
  }

  predicate SortedProviders(providers: seq<string>) {
    forall i, j :: 0 <= i < j < |providers| ==> Less(providers[i], providers[j])
  }

  lemma {:induction false} OffersSorted(data: Catalogue, providers: seq<string>, m: ModelName)
    requires SortedProviders(providers)
    ensures var offers := Offers(data, providers, m); SortedByProvider(offers) && Offered(offers)
    ensures forall c <- Offers(data, providers, m) :: c.provider in providers
  {
    if providers != [] { OffersSorted(data, providers[..|providers| - 1], m); }
  }

  lemma {:induction false} OffersComplete(data: Catalogue, providers: seq<string>, m: ModelName, c: Candidate)
    ensures c in Offers(data, providers, m) <==>
      c.provider in providers && c.provider in data && m in data[c.provider]
      && BuildCandidate(c.provider, data[c.provider][m]) == Some(c)
  {
    if providers != [] {
      var n := |providers| - 1;
      assert providers == providers[..n] + [providers[n]];
      OffersComplete(data, providers[..n], m, c);
    }
  }

  predicate IsFold(selected: map<ModelName, Candidate>, data: Catalogue, providers: seq<string>, m: ModelName) {
    Fold(Offers(data, providers, m)) == if m in selected then Some(selected[m]) else None
  }

  lemma OffersStep(data: Catalogue, providers: seq<string>, i: nat, m: ModelName)
    requires i < |providers| && providers[i] in data
    ensures var init, all := Offers(data, providers[..i], m), Offers(data, providers[..i + 1], m);
      var p := providers[i];
      if m in data[p] && BuildCandidate(p, data[p][m]).Some?
      then all == init + [BuildCandidate(p, data[p][m]).value] else all == init
  {
    assert providers[..i + 1][..i] == providers[..i];
  }

  lemma FoldStep(offers: seq<Candidate>, next: Candidate)
    ensures var current := Fold(offers);
      Fold(offers + [next]) == if current.None? || ShouldReplace(current.value, next) then Some(next) else current
  {
    assert (offers + [next])[..|offers|] == offers;
  }

  /** One provider's models are folded into the selection; distinct models do not interfere. */
  method AddProvider(selected: map<ModelName, Candidate>, provider: string, costs: map<ModelName, Cost>)
    returns (next: map<ModelName, Candidate>)
    ensures forall m :: Merged(selected, next, provider, costs, m)
  {
    next := selected;
    var todo := costs.Keys;
    while todo != {}
      invariant todo <= costs.Keys
      invariant forall m :: if m in todo then (m in next <==> m in selected) && (m in next ==> next[m] == selected[m])
                            else Merged(selected, next, provider, costs, m)
      decreases |todo|
    {
      var m :| m in todo;
      var candidate := BuildCandidate(provider, costs[m]);
      if candidate.Some? {
        if m !in next || ShouldReplace(next[m], candidate.value) { next := next[m := candidate.value]; }
      }
      todo := todo - {m};
    }
  }

  ghost predicate Merged(selected: map<ModelName, Candidate>, next: map<ModelName, Candidate>, provider: string,
                         costs: map<ModelName, Cost>, m: ModelName)
  {
    var current := if m in selected then Some(selected[m]) else None;
    (if m in next then Some(next[m]) else None) ==
      if m in costs && BuildCandidate(provider, costs[m]).Some? then
        var c := BuildCandidate(provider, costs[m]).value;
        if current.None? || ShouldReplace(current.value, c) then Some(c) else current
      else current
  }

  /**
   The chosen candidate of a model against every usable cost in the catalogue: a free one is chosen
   only when all are free, and then the first provider's; a priced one is not undercut by a
   billionth or more, and is cheaper than every price of an earlier provider.
   */
  ghost predicate Chosen(data: Catalogue, m: ModelName, choice: Candidate) {
    && choice.provider in data && m in data[choice.provider]
    && Usable(data[choice.provider][m]) && Carries(choice, data[choice.provider][m])
    && forall p <- data :: m in data[p] && Usable(data[p][m]) ==> Beats(choice, p, data[p][m].input.value)
  }

  predicate Beats(choice: Candidate, provider: string, price: real) {
    if choice.input == 0.0 then price == 0.0 && !Less(provider, choice.provider)
    else price == 0.0 || (price > choice.input - 0.000000001 && (Less(provider, choice.provider) ==> price > choice.input))
  }

  lemma BestBeats(offers: seq<Candidate>, k: nat, i: nat)
    requires SortedByProvider(offers) && Offered(offers) && k < |offers| && i < |offers| && Best(offers, k)
    ensures Beats(offers[k], offers[i].provider, offers[i].input)
  {
    if Less(offers[i].provider, offers[k].provider) {
      LessAsymmetric(offers[i].provider, offers[k].provider);
      assert i < k;
    }
    if offers[k].input > 0.0 && offers[i].input > 0.0 { BestBound(offers, k, i); }
  }

  lemma FoldChosen(data: Catalogue, providers: seq<string>, m: ModelName)
    requires SortedProviders(providers) && (forall p :: p in providers <==> p in data)
    requires Offers(data, providers, m) != []
    ensures Fold(Offers(data, providers, m)).Some?
    ensures Chosen(data, m, Fold(Offers(data, providers, m)).value)
  {
    var offers := Offers(data, providers, m);
    OffersSorted(data, providers, m);
    var k := FoldBest(offers);
    var choice := offers[k];
    OffersComplete(data, providers, m, choice);
    BuildCandidateIs(choice.provider, data[choice.provider][m]);
    forall p | p in data && m in data[p] && Usable(data[p][m]) ensures Beats(choice, p, data[p][m].input.value) {
      BuildCandidateIs(p, data[p][m]);
      var c := BuildCandidate(p, data[p][m]).value;
      OffersComplete(data, providers, m, c);
      var i :| 0 <= i < |offers| && offers[i] == c;
      BestBeats(offers, k, i);
    }
  }

  /**
   The selection loop over sorted providers: a model is selected exactly when some provider has a
   valid candidate for it, and the selected candidate is the cheapest non-zero one up to epsilon.
   */
  method SelectCandidates(data: Catalogue, providers: seq<string>) returns (selected: map<ModelName, Candidate>)
    requires SortedProviders(providers) && forall p :: p in providers <==> p in data
    ensures forall m :: m in selected <==>
      exists p :: p in data && m in data[p] && Usable(data[p][m])
    ensures forall m <- selected :: Chosen(data, m, selected[m])
  {
    selected := map[];
    for i := 0 to |providers|
      invariant forall m :: IsFold(selected, data, providers[..i], m)
    {
      var p := providers[i];
      var before := selected;
      selected := AddProvider(before, p, data[p]);
      ghost var seen := providers[..i + 1];
      forall m ensures IsFold(selected, data, seen, m) {
        OffersStep(data, providers, i, m);
        assert IsFold(before, data, providers[..i], m) && Merged(before, selected, p, data[p], m);
        if m in data[p] && BuildCandidate(p, data[p][m]).Some? {
          FoldStep(Offers(data, providers[..i], m), BuildCandidate(p, data[p][m]).value);
        }
      }
    }
    assert providers[..|providers|] == providers;
    forall m
      ensures m in selected <==> exists p :: p in data && m in data[p] && Usable(data[p][m])
      ensures m in selected ==> Chosen(data, m, selected[m])
    {
      SelectedModel(data, providers, selected, m);
    }
  }

  lemma SelectedModel(data: Catalogue, providers: seq<string>, selected: map<ModelName, Candidate>, m: ModelName)
    requires SortedProviders(providers) && forall p :: p in providers <==> p in data
    requires IsFold(selected, data, providers, m)
    ensures m in selected <==> exists p :: p in data && m in data[p] && Usable(data[p][m])
    ensures m in selected ==> Chosen(data, m, selected[m])
  {
    var offers := Offers(data, providers, m);
    if offers != [] {
      FoldChosen(data, providers, m);
    }
    if p :| p in data && m in data[p] && Usable(data[p][m]) {
      BuildCandidateIs(p, data[p][m]);
      OffersComplete(data, providers, m, BuildCandidate(p, data[p][m]).value);
    }
  }
}
