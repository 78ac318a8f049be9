/** Sums over the workers of a concurrent protocol: what changes when one worker takes a step. */
module Sums {

  ghost function Sum<T>(ws: seq<T>, f: T -> int): int
  {
    if ws == [] then 0 else Sum(ws[..|ws| - 1], f) + f(ws[|ws| - 1])
  }

  /** When worker `i` moves to `w`, the sum moves by the difference of the two contributions. */
  lemma {:induction false} SumUpdate<T>(ws: seq<T>, i: nat, w: T, f: T -> int)
    requires i < |ws|
    ensures Sum(ws[i := w], f) == Sum(ws, f) - f(ws[i]) + f(w)
  {
    var n := |ws| - 1;
    var ws' := ws[i := w];
    if i == n {
      assert ws'[..n] == ws[..n];
    } else {
      assert ws'[..n] == ws[..n][i := w];
      SumUpdate(ws[..n], i, w, f);
    }
  }

  /** With non-negative contributions, no contribution exceeds the sum. */
  lemma {:induction false} SumBounds<T>(ws: seq<T>, f: T -> int)
    requires forall w <- ws :: 0 <= f(w)
    ensures 0 <= Sum(ws, f)
    ensures forall w <- ws :: f(w) <= Sum(ws, f)
  {
    if ws != [] {
      SumBounds(ws[..|ws| - 1], f);
    }
  }

  /** Two different workers' contributions together do not exceed the sum. */
  lemma {:induction false} SumPair<T>(ws: seq<T>, i: nat, j: nat, f: T -> int)
    requires i < j < |ws|
    requires forall w <- ws :: 0 <= f(w)
    ensures f(ws[i]) + f(ws[j]) <= Sum(ws, f)
  {
    var n := |ws| - 1;
    if j == n {
      SumBounds(ws[..n], f);
      assert ws[..n][i] == ws[i];
    } else {
      SumPair(ws[..n], i, j, f);
    }
  }

  /** A pointwise bound carries over to the sums. */
  lemma {:induction false} SumMonotone<T>(ws: seq<T>, f: T -> int, g: T -> int)
    requires forall w <- ws :: f(w) <= g(w)
    ensures Sum(ws, f) <= Sum(ws, g)
  {
    if ws != [] {
      SumMonotone(ws[..|ws| - 1], f, g);
    }
  }

  /** A positive sum has a positive contribution. */
  lemma {:induction false} SumWitness<T>(ws: seq<T>, f: T -> int) returns (i: nat)
    requires 0 < Sum(ws, f)
    ensures i < |ws| && 0 < f(ws[i])
  {
    var n := |ws| - 1;
    if 0 < f(ws[n]) {
      i := n;
    } else {
      i := SumWitness(ws[..n], f);
    }
  }

  /** Workers that contribute nothing sum to nothing. */
  lemma {:induction false} SumZero<T>(ws: seq<T>, f: T -> int)
    requires forall w <- ws :: f(w) == 0
    ensures Sum(ws, f) == 0
  {
    if ws != [] {
      SumZero(ws[..|ws| - 1], f);
    }
  }
}
