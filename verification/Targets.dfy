/** The weighted draw of a baseline target. */
module Targets {
  import opened Common

  const MAX_INT64 := 0x7fff_ffff_ffff_ffff

  function Sum(weights: seq<int>): (n: int)
  {
    if weights == [] then 0 else Sum(weights[..|weights| - 1]) + weights[|weights| - 1]
  }

  /** What makes a list of weights drawable. */
  predicate Drawable(weights: seq<int>)
  {
    weights != [] && (forall i :: 0 <= i < |weights| ==> 1 <= weights[i]) && Sum(weights) <= MAX_INT64
  }

  lemma {:induction false} SumGrows(weights: seq<int>, i: nat)
    requires i <= |weights| && forall k :: 0 <= k < |weights| ==> 1 <= weights[k]
    ensures i <= Sum(weights[..i]) && Sum(weights[..i]) + (|weights| - i) <= Sum(weights)
    decreases |weights|
  {
    if i == |weights| {
      assert weights[..i] == weights;
      if i != 0 {
        SumGrows(weights[..i - 1], i - 1);
        assert weights[..i - 1][..i - 1] == weights[..i - 1];
      }
    } else {
      var front := weights[..|weights| - 1];
      SumGrows(front, i);
      assert front[..i] == weights[..i];
    }
  }

  /** The total, or nothing when a weight is not positive or the sum leaves 64 bits. */
  method Total(weights: seq<int>) returns (r: Option<int>)
    ensures r.Some? <==> (forall i :: 0 <= i < |weights| ==> 1 <= weights[i]) && Sum(weights) <= MAX_INT64
    ensures r.Some? ==> r.value == Sum(weights)
  {
    var total, i := 0, 0;
    while i < |weights|
      invariant 0 <= i <= |weights| && total == Sum(weights[..i]) <= MAX_INT64
      invariant forall k :: 0 <= k < i ==> 1 <= weights[k]
    {
      assert weights[..i + 1][..i] == weights[..i];
      if weights[i] < 1 {
        return None;
      }
      if total > MAX_INT64 - weights[i] {
        if forall k :: 0 <= k < |weights| ==> 1 <= weights[k] {
          SumGrows(weights, i + 1);
        }
        return None;
      }
      total := total + weights[i];
      i := i + 1;
    }
    assert weights[..i] == weights;
    return Some(total);
  }

  /** selectBaselineTarget on a given draw: an error exactly for undrawable weights or a draw out of range. */
  method SelectBaselineTarget(weights: seq<int>, drawn: int) returns (r: Option<nat>)
    ensures r.Some? <==> Drawable(weights) && 0 <= drawn < Sum(weights)
    ensures r.Some? ==> r.value < |weights| && Sum(weights[..r.value]) <= drawn < Sum(weights[..r.value + 1])
  {
    var total := Total(weights);
    if total.None? {
      return None;
    }
    if total.value == 0 {
      if weights != [] {
        SumGrows(weights, 0);
      }
      return None;
    }
    if drawn < 0 || drawn >= total.value {
      return None;
    }
    var draw, i := drawn, 0;
    assert weights[..|weights|] == weights;
    while i < |weights|
      invariant 0 <= i <= |weights| && draw == drawn - Sum(weights[..i]) && 0 <= draw
    {
      assert weights[..i + 1][..i] == weights[..i];
      if draw < weights[i] {
        return Some(i);
      }
      draw := draw - weights[i];
      i := i + 1;
    }
    assert false;
  }

  // ---------------------------------------------------------------------------
  // Fairness

  /** Draw d selects target i. */
  predicate Selects(weights: seq<int>, d: int, i: nat)
    requires i < |weights|
  {
    Sum(weights[..i]) <= d < Sum(weights[..i + 1])
  }

  /** Every draw selects one target and no other. */
  lemma {:induction false} SelectionIsUnique(weights: seq<int>, d: int, i: nat, j: nat)
    requires Drawable(weights) && i < |weights| && j < |weights| && Selects(weights, d, i) && Selects(weights, d, j)
    ensures i == j
  {
    if i < j {
      Monotone(weights, i + 1, j);
    } else if j < i {
      Monotone(weights, j + 1, i);
    }
  }

  lemma Monotone(weights: seq<int>, i: nat, j: nat)
    requires i <= j <= |weights| && forall k :: 0 <= k < |weights| ==> 1 <= weights[k]
    ensures Sum(weights[..i]) <= Sum(weights[..j])
  {
    SumGrows(weights[..j], i);
    assert weights[..j][..i] == weights[..i];
  }

  /** The draws that select target i. */
  ghost function Draws(weights: seq<int>, i: nat): (s: set<int>)
    requires i < |weights|
  {
    set d: int | 0 <= d < Sum(weights) && Selects(weights, d, i)
  }

  lemma {:induction false} Interval(lo: int, n: nat, s: set<int>)
    requires forall d :: d in s <==> lo <= d < lo + n
    ensures |s| == n
  {
    if n == 0 {
      assert forall d :: d !in s;
    } else {
      Interval(lo, n - 1, s - {lo + n - 1});
    }
  }

  /** Of the possible draws, exactly as many select a target as its weight. */
  lemma WeightManyDraws(weights: seq<int>, i: nat)
    requires Drawable(weights) && i < |weights|
    ensures |Draws(weights, i)| == weights[i]
  {
    var lo := Sum(weights[..i]);
    assert weights[..i + 1][..i] == weights[..i];
    SumGrows(weights, i);
    SumGrows(weights, i + 1);
    Interval(lo, weights[i], Draws(weights, i));
  }
}
