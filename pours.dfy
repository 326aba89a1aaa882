/**
 * Arithmetic over a 4:6 pour list shared by the validator, the step generator and the editor:
 * the base water, the phase percentages, the 0.1 g tolerance, running totals, and the
 * phase-1 boundary (the first pour whose running total reaches 40 % of the base, less the tolerance).
 */
module Pours {
  import opened CoffeeTypes

  /** Every preset is written against this many grams. */
  const BASE_WATER: real := 300.0
  /** Share of the base poured in phase 1 (sweetness). */
  const PHASE_1_PERCENT: real := 0.4
  /** Share of the base poured in phase 2 (strength). */
  const PHASE_2_PERCENT: real := 0.6
  /** Absolute slack, in grams, on every total and threshold comparison. */
  const TOLERANCE: real := 0.1

  const PHASE_1_TARGET: real := BASE_WATER * PHASE_1_PERCENT
  const PHASE_2_TARGET: real := BASE_WATER * PHASE_2_PERCENT

  /** Sum of the amounts, accumulated left to right as `reduce` does. */
  function AmountSum(pours: seq<FourSixPour>): real
    decreases |pours|
  {
    if pours == [] then 0.0 else AmountSum(pours[..|pours| - 1]) + pours[|pours| - 1].amount
  }

  /** Running total after pour i (inclusive). */
  function Cumulative(pours: seq<FourSixPour>, i: nat): real
    requires i < |pours|
  {
    AmountSum(pours[..i + 1])
  }

  /** Pour i brings the running total up to the phase-1 threshold. */
  predicate Reaches(pours: seq<FourSixPour>, i: int) {
    0 <= i < |pours| && Cumulative(pours, i) >= PHASE_1_TARGET - TOLERANCE
  }

  /** The first index at or after `from` that reaches the threshold, if any. */
  function FirstReachFrom(pours: seq<FourSixPour>, from: nat): (r: Option<nat>)
    requires from <= |pours|
    ensures r.Some? ==> from <= r.value < |pours| && Reaches(pours, r.value)
    ensures r.Some? ==> forall j :: from <= j < r.value ==> !Reaches(pours, j)
    ensures r.None? ==> forall j :: from <= j < |pours| ==> !Reaches(pours, j)
    decreases |pours| - from
  {
    if from == |pours| then None
    else if Reaches(pours, from) then Some(from)
    else FirstReachFrom(pours, from + 1)
  }

  /** The phase-1 boundary: the first pour whose running total reaches 120 g - 0.1 g. */
  function FirstReach(pours: seq<FourSixPour>): (r: Option<nat>)
    ensures r.Some? ==> Reaches(pours, r.value) && forall j :: 0 <= j < r.value ==> !Reaches(pours, j)
    ensures r.None? ==> forall j :: 0 <= j < |pours| ==> !Reaches(pours, j)
  {
    FirstReachFrom(pours, 0)
  }

  /** The boundary with the -1 sentinel used by the step generator and the editor. */
  function Phase1Index(pours: seq<FourSixPour>): (r: int)
    ensures -1 <= r < |pours|
    ensures r >= 0 ==> Reaches(pours, r) && forall j :: 0 <= j < r ==> !Reaches(pours, j)
    ensures r == -1 <==> forall j :: 0 <= j < |pours| ==> !Reaches(pours, j)
  {
    match FirstReach(pours)
    case Some(k) => k
    case None => -1
  }

  /** A reaching pour with none reaching before it is the boundary. */
  lemma FirstReachIs(pours: seq<FourSixPour>, k: nat)
    requires Reaches(pours, k)
    requires forall j :: 0 <= j < k ==> !Reaches(pours, j)
    ensures FirstReach(pours) == Some(k)
  {
  }

  /** With no reaching pour there is no boundary. */
  lemma FirstReachAbsent(pours: seq<FourSixPour>)
    requires forall j :: 0 <= j < |pours| ==> !Reaches(pours, j)
    ensures FirstReach(pours) == None
  {
  }

  /**
   * The boundary scan shared by the step generator and the editor: accumulate amounts until the
   * running total reaches the threshold, then stop; -1 when it never does.
   */
  method ScanPhase1Index(pours: seq<FourSixPour>) returns (phase1Index: int)
    ensures phase1Index == Phase1Index(pours)
  {
    phase1Index := -1;
    var cumulative := 0.0;
    var i := 0;
    while i < |pours|
      invariant 0 <= i <= |pours|
      invariant phase1Index == -1
      invariant cumulative == AmountSum(pours[..i])
      invariant forall j :: 0 <= j < i ==> !Reaches(pours, j)
    {
      assert pours[..i + 1][..i] == pours[..i];
      cumulative := cumulative + pours[i].amount;
      if cumulative >= PHASE_1_TARGET - TOLERANCE && phase1Index == -1 {
        phase1Index := i;
        break;
      }
      i := i + 1;
    }
    if phase1Index >= 0 {
      FirstReachIs(pours, phase1Index);
    } else {
      FirstReachAbsent(pours);
    }
  }

  lemma AmountSumAppend(pours: seq<FourSixPour>, p: FourSixPour)
    ensures AmountSum(pours + [p]) == AmountSum(pours) + p.amount
  {
    assert (pours + [p])[..|pours|] == pours;
  }

  /** The running total up to n adds pour n - 1 to the running total before it. */
  lemma AmountSumStep(pours: seq<FourSixPour>, n: nat)
    requires 0 < n <= |pours|
    ensures AmountSum(pours[..n]) == AmountSum(pours[..n - 1]) + pours[n - 1].amount
  {
    assert pours[..n][..n - 1] == pours[..n - 1];
  }

  /** Cutting the list anywhere splits its sum. */
  lemma {:induction false} AmountSumSplit(pours: seq<FourSixPour>, k: nat)
    requires k <= |pours|
    ensures AmountSum(pours[..k]) + AmountSum(pours[k..]) == AmountSum(pours)
    decreases |pours|
  {
    if k == |pours| {
      assert pours[..k] == pours;
      assert pours[k..] == [];
    } else {
      var init := pours[..|pours| - 1];
      AmountSumSplit(init, k);
      assert init[..k] == pours[..k];
      assert pours[k..] == init[k..] + [pours[|pours| - 1]];
      AmountSumAppend(init[k..], pours[|pours| - 1]);
    }
  }

  /** The sum of two lists joined is the sum of their sums. */
  lemma AmountSumConcat(xs: seq<FourSixPour>, ys: seq<FourSixPour>)
    ensures AmountSum(xs + ys) == AmountSum(xs) + AmountSum(ys)
  {
    AmountSumSplit(xs + ys, |xs|);
    assert (xs + ys)[..|xs|] == xs;
    assert (xs + ys)[|xs|..] == ys;
  }

  /** Lists of the same length with the same amounts have the same sum, whatever their times. */
  lemma {:induction false} AmountSumSameAmounts(xs: seq<FourSixPour>, ys: seq<FourSixPour>)
    requires |xs| == |ys|
    requires forall i :: 0 <= i < |xs| ==> xs[i].amount == ys[i].amount
    ensures AmountSum(xs) == AmountSum(ys)
    decreases |xs|
  {
    if xs != [] {
      AmountSumSameAmounts(xs[..|xs| - 1], ys[..|ys| - 1]);
    }
  }

  /** The boundary depends on the amounts only: lists with the same amounts share it. */
  lemma SameAmountsSameBoundary(xs: seq<FourSixPour>, ys: seq<FourSixPour>)
    requires |xs| == |ys|
    requires forall i :: 0 <= i < |xs| ==> xs[i].amount == ys[i].amount
    ensures FirstReach(xs) == FirstReach(ys)
    ensures Phase1Index(xs) == Phase1Index(ys)
  {
    forall j | 0 <= j < |xs|
      ensures Reaches(xs, j) == Reaches(ys, j)
    {
      AmountSumSameAmounts(xs[..j + 1], ys[..j + 1]);
    }
    match FirstReach(xs) {
      case Some(k) => FirstReachIs(ys, k);
      case None => FirstReachAbsent(ys);
    }
  }

  /** With non-negative amounts, running totals never decrease. */
  lemma {:induction false} AmountSumMonotone(pours: seq<FourSixPour>, i: nat, j: nat)
    requires i <= j <= |pours|
    requires forall k :: 0 <= k < |pours| ==> pours[k].amount >= 0.0
    ensures AmountSum(pours[..i]) <= AmountSum(pours[..j])
    decreases j - i
  {
    if i < j {
      AmountSumMonotone(pours, i, j - 1);
      assert pours[..j] == pours[..j - 1] + [pours[j - 1]];
      AmountSumAppend(pours[..j - 1], pours[j - 1]);
    }
  }
}
