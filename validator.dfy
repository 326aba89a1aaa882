/**
 * The 4:6 preset validator (src/utils/fourSixValidator.ts).
 *
 * `Validation` is the reference definition: which errors a pour list earns, in which order,
 * and the phase totals reported with them. `ValidateFourSixPreset` is the imperative
 * procedure of the source (a boundary loop with break, and loops that push errors), proved
 * to compute exactly `Validation`. The lemmas state what a result means.
 */
module FourSixValidator {
  import opened CoffeeTypes
  import opened Pours

  /** The error messages, reduced to their kind and the numbers they mention. */
  datatype ValidationError =
    | NoPours
    | TotalMismatch(currentTotal: real)
    | Phase1Mismatch(currentPhase1: real)
    | Phase2Mismatch(currentPhase2: real)
    | AmountNotPositive(pourNumber: nat)
    | TimeNotAfter(pourNumber: nat, previousNumber: nat)

  datatype ValidationResult = ValidationResult(
    isValid: bool,
    errors: seq<ValidationError>,
    phase1Total: real,
    phase2Total: real,
    phase1Percentage: real,
    phase2Percentage: real)

  function Abs(x: real): real {
    if x < 0.0 then -x else x
  }

  /** The check `Math.abs(value - target) > 0.1`. */
  predicate OffTarget(value: real, target: real) {
    Abs(value - target) > TOLERANCE
  }

  /** The validator's boundary: the first reaching pour, or pour 0 when none reaches. */
  function Phase1End(pours: seq<FourSixPour>): (k: nat)
    requires |pours| > 0
    ensures k < |pours|
  {
    match FirstReach(pours)
    case Some(i) => i
    case None => 0
  }

  function Phase1Total(pours: seq<FourSixPour>): real
    requires |pours| > 0
  {
    AmountSum(pours[..Phase1End(pours) + 1])
  }

  function Phase2Total(pours: seq<FourSixPour>): real
    requires |pours| > 0
  {
    AmountSum(pours[Phase1End(pours) + 1..])
  }

  function Percentage(subtotal: real): real {
    subtotal / BASE_WATER * 100.0
  }

  /** The total and the two phase checks, in that order. */
  function TotalErrors(total: real, phase1: real, phase2: real): seq<ValidationError> {
    (if OffTarget(total, BASE_WATER) then [TotalMismatch(total)] else [])
    + (if OffTarget(phase1, PHASE_1_TARGET) then [Phase1Mismatch(phase1)] else [])
    + (if OffTarget(phase2, PHASE_2_TARGET) then [Phase2Mismatch(phase2)] else [])
  }

  /** One error per pour whose amount is not positive, numbered from 1. */
  function AmountErrors(pours: seq<FourSixPour>): seq<ValidationError>
    decreases |pours|
  {
    if pours == [] then []
    else
      AmountErrors(pours[..|pours| - 1])
      + (if pours[|pours| - 1].amount <= 0.0 then [AmountNotPositive(|pours|)] else [])
  }

  /** One error per adjacent pair whose later time does not exceed the earlier one. */
  function TimingErrors(pours: seq<FourSixPour>): seq<ValidationError>
    decreases |pours|
  {
    if |pours| <= 1 then []
    else
      TimingErrors(pours[..|pours| - 1])
      + (if pours[|pours| - 1].timeSeconds <= pours[|pours| - 2].timeSeconds
         then [TimeNotAfter(|pours|, |pours| - 1)] else [])
  }

  /** Reference definition of `validateFourSixPreset`. */
  function Validation(pours: seq<FourSixPour>): ValidationResult {
    if |pours| == 0 then
      ValidationResult(false, [NoPours], 0.0, 0.0, 0.0, 0.0)
    else
      var p1 := Phase1Total(pours);
      var p2 := Phase2Total(pours);
      var errors := TotalErrors(AmountSum(pours), p1, p2) + AmountErrors(pours) + TimingErrors(pours);
      ValidationResult(errors == [], errors, p1, p2, Percentage(p1), Percentage(p2))
  }

  /** The boundary loop: accumulate until the running total reaches the threshold, then stop; pour 0 if never. */
  method FindPhase1End(pours: seq<FourSixPour>) returns (phase1End: nat)
    requires |pours| > 0
    ensures phase1End == Phase1End(pours)
    ensures phase1End < |pours|
  {
    var cumulative := 0.0;
    phase1End := 0;
    var i := 0;
    while i < |pours|
      invariant 0 <= i <= |pours|
      invariant cumulative == AmountSum(pours[..i])
      invariant forall j :: 0 <= j < i ==> !Reaches(pours, j)
      invariant phase1End == 0
    {
      assert pours[..i + 1] == pours[..i] + [pours[i]];
      AmountSumAppend(pours[..i], pours[i]);
      cumulative := cumulative + pours[i].amount;
      if cumulative >= PHASE_1_TARGET - TOLERANCE {
        phase1End := i;
        break;
      }
      i := i + 1;
    }
    if i < |pours| {
      FirstReachIs(pours, i);
    } else {
      FirstReachAbsent(pours);
    }
  }

  /** The per-pour amount check: push one error for each non-positive amount, in pour order. */
  method PushAmountErrors(pours: seq<FourSixPour>, errors: seq<ValidationError>) returns (result: seq<ValidationError>)
    ensures result == errors + AmountErrors(pours)
  {
    result := errors;
    var k := 0;
    while k < |pours|
      invariant 0 <= k <= |pours|
      invariant result == errors + AmountErrors(pours[..k])
    {
      assert pours[..k + 1][..k] == pours[..k];
      if pours[k].amount <= 0.0 {
        result := result + [AmountNotPositive(k + 1)];
      }
      k := k + 1;
    }
    assert pours[..k] == pours;
  }

  /** The timing check: push one error for each adjacent pair whose later time does not move forward. */
  method PushTimingErrors(pours: seq<FourSixPour>, errors: seq<ValidationError>) returns (result: seq<ValidationError>)
    ensures result == errors + TimingErrors(pours)
  {
    result := errors;
    if |pours| == 0 {
      return;
    }
    assert TimingErrors(pours[..1]) == [];
    var t := 1;
    while t < |pours|
      invariant 1 <= t <= |pours|
      invariant result == errors + TimingErrors(pours[..t])
    {
      ghost var prefix := pours[..t + 1];
      assert prefix[..t] == pours[..t];
      assert TimingErrors(prefix) == TimingErrors(pours[..t])
        + (if pours[t].timeSeconds <= pours[t - 1].timeSeconds then [TimeNotAfter(t + 1, t)] else []);
      if pours[t].timeSeconds <= pours[t - 1].timeSeconds {
        result := result + [TimeNotAfter(t + 1, t)];
      }
      t := t + 1;
    }
    assert pours[..t] == pours;
  }

  /** The validator as the source runs it: errors are pushed in turn and nothing short-circuits. */
  method ValidateFourSixPreset(pours: seq<FourSixPour>) returns (r: ValidationResult)
    ensures r == Validation(pours)
    ensures r.isValid <==> r.errors == []
    ensures |pours| == 0 ==> r.errors == [NoPours] && r.phase1Total == 0.0 && r.phase2Total == 0.0
                             && r.phase1Percentage == 0.0 && r.phase2Percentage == 0.0
  {
    var errors: seq<ValidationError> := [];
    if |pours| == 0 {
      errors := errors + [NoPours];
      return ValidationResult(false, errors, 0.0, 0.0, 0.0, 0.0);
    }

    var total := AmountSum(pours);
    if OffTarget(total, BASE_WATER) {
      errors := errors + [TotalMismatch(total)];
    }

    var phase1End := FindPhase1End(pours);
    var phase1Total := AmountSum(pours[..phase1End + 1]);
    var phase2Total := AmountSum(pours[phase1End + 1..]);
    var phase1Percentage := (phase1Total / BASE_WATER) * 100.0;
    var phase2Percentage := (phase2Total / BASE_WATER) * 100.0;

    if OffTarget(phase1Total, PHASE_1_TARGET) {
      errors := errors + [Phase1Mismatch(phase1Total)];
    }
    if OffTarget(phase2Total, PHASE_2_TARGET) {
      errors := errors + [Phase2Mismatch(phase2Total)];
    }
    assert errors == TotalErrors(total, phase1Total, phase2Total);

    errors := PushAmountErrors(pours, errors);
    errors := PushTimingErrors(pours, errors);

    r := ValidationResult(|errors| == 0, errors, phase1Total, phase2Total, phase1Percentage, phase2Percentage);
  }

  // ----- what a validation result means -----

  predicate AllAmountsPositive(pours: seq<FourSixPour>) {
    forall i :: 0 <= i < |pours| ==> pours[i].amount > 0.0
  }

  /** Pour i starts strictly after pour i - 1. */
  predicate StartsAfterPrevious(pours: seq<FourSixPour>, i: int) {
    0 < i < |pours| && pours[i - 1].timeSeconds < pours[i].timeSeconds
  }

  predicate TimesStrictlyIncrease(pours: seq<FourSixPour>) {
    forall i :: 0 < i < |pours| ==> StartsAfterPrevious(pours, i)
  }

  /** Exactly one amount error per non-positive pour, labelled with its 1-based number, in pour order. */
  lemma {:induction false} AmountErrorsExact(pours: seq<FourSixPour>)
    ensures |AmountErrors(pours)| <= |pours|
    ensures forall e :: e in AmountErrors(pours) ==>
              e.AmountNotPositive? && 1 <= e.pourNumber <= |pours| && pours[e.pourNumber - 1].amount <= 0.0
    ensures forall i :: 0 <= i < |pours| && pours[i].amount <= 0.0 ==> AmountNotPositive(i + 1) in AmountErrors(pours)
    ensures forall a, b :: 0 <= a < b < |AmountErrors(pours)| ==>
              AmountErrors(pours)[a].AmountNotPositive? && AmountErrors(pours)[b].AmountNotPositive? &&
              AmountErrors(pours)[a].pourNumber < AmountErrors(pours)[b].pourNumber
    decreases |pours|
  {
    if pours != [] {
      var init := pours[..|pours| - 1];
      AmountErrorsExact(init);
      forall e | e in AmountErrors(init)
        ensures pours[e.pourNumber - 1] == init[e.pourNumber - 1]
      {
      }
      forall i | 0 <= i < |init|
        ensures pours[i] == init[i]
      {
      }
    }
  }

  /** Exactly one timing error per adjacent pair that does not move forward, labelled i + 1 / i, in order. */
  lemma {:induction false} TimingErrorsExact(pours: seq<FourSixPour>)
    ensures |pours| > 0 ==> |TimingErrors(pours)| <= |pours| - 1
    ensures forall e :: e in TimingErrors(pours) ==>
              e.TimeNotAfter? && 2 <= e.pourNumber <= |pours| && e.previousNumber == e.pourNumber - 1
              && !StartsAfterPrevious(pours, e.pourNumber - 1)
    ensures forall i :: 0 < i < |pours| && !StartsAfterPrevious(pours, i) ==> TimeNotAfter(i + 1, i) in TimingErrors(pours)
    ensures forall a, b :: 0 <= a < b < |TimingErrors(pours)| ==>
              TimingErrors(pours)[a].TimeNotAfter? && TimingErrors(pours)[b].TimeNotAfter? &&
              TimingErrors(pours)[a].pourNumber < TimingErrors(pours)[b].pourNumber
    decreases |pours|
  {
    if |pours| > 1 {
      var init := pours[..|pours| - 1];
      TimingErrorsExact(init);
      var t := TimingErrors(pours);
      forall a, b | 0 <= a < b < |t|
        ensures t[a].TimeNotAfter? && t[b].TimeNotAfter? && t[a].pourNumber < t[b].pourNumber
      {
        assert t[a] in TimingErrors(init);
        if b < |TimingErrors(init)| {
          assert t[b] in TimingErrors(init);
        }
      }
      forall i | 0 < i < |init|
        ensures StartsAfterPrevious(pours, i) == StartsAfterPrevious(init, i)
      {
      }
    } else {
      assert TimingErrors(pours) == [];
    }
  }

  /** For a non-empty list: at most the three total checks, one per pour, and one per adjacent pair. */
  lemma {:induction false} ErrorCountBound(pours: seq<FourSixPour>)
    requires |pours| >= 1
    ensures |Validation(pours).errors| <= 3 + |pours| + (|pours| - 1)
  {
    AmountErrorsExact(pours);
    TimingErrorsExact(pours);
  }

  /** The two phases partition the list, so their totals add up to the whole. */
  lemma {:induction false} PhaseTotalsPartition(pours: seq<FourSixPour>)
    requires |pours| > 0
    ensures Validation(pours).phase1Total + Validation(pours).phase2Total == AmountSum(pours)
  {
    AmountSumSplit(pours, Phase1End(pours) + 1);
  }

  /** When no running total reaches the threshold, phase 1 is the first pour alone. */
  lemma {:induction false} UnreachedBoundaryIsFirstPour(pours: seq<FourSixPour>)
    requires |pours| > 0
    requires forall j :: 0 <= j < |pours| ==> !Reaches(pours, j)
    ensures Validation(pours).phase1Total == pours[0].amount
    ensures Validation(pours).phase2Total == AmountSum(pours[1..])
  {
    FirstReachAbsent(pours);
    assert pours[..1] == [] + [pours[0]];
    AmountSumAppend([], pours[0]);
  }

  /** Otherwise phase 1 runs up to and including the first reaching pour. */
  lemma {:induction false} ReachedBoundaryEndsPhase1(pours: seq<FourSixPour>, k: nat)
    requires Reaches(pours, k)
    requires forall j :: 0 <= j < k ==> !Reaches(pours, j)
    ensures Validation(pours).phase1Total == Cumulative(pours, k)
    ensures Validation(pours).phase1Total >= PHASE_1_TARGET - TOLERANCE
    ensures Validation(pours).phase2Total == AmountSum(pours[k + 1..])
  {
    FirstReachIs(pours, k);
  }

  lemma {:induction false} AmountErrorsEmpty(pours: seq<FourSixPour>)
    ensures AmountErrors(pours) == [] <==> AllAmountsPositive(pours)
  {
    AmountErrorsExact(pours);
    if !AllAmountsPositive(pours) {
      var i :| 0 <= i < |pours| && pours[i].amount <= 0.0;
      assert AmountNotPositive(i + 1) in AmountErrors(pours);
    }
    if AmountErrors(pours) != [] {
      assert AmountErrors(pours)[0] in AmountErrors(pours);
    }
  }

  lemma {:induction false} TimingErrorsEmpty(pours: seq<FourSixPour>)
    ensures TimingErrors(pours) == [] <==> TimesStrictlyIncrease(pours)
  {
    TimingErrorsExact(pours);
    if !TimesStrictlyIncrease(pours) {
      var i :| 0 < i < |pours| && !StartsAfterPrevious(pours, i);
      assert TimeNotAfter(i + 1, i) in TimingErrors(pours);
    }
    if TimingErrors(pours) != [] {
      assert TimingErrors(pours)[0] in TimingErrors(pours);
    }
  }

  /** A list is valid exactly when every rule holds: both directions. */
  lemma {:induction false} ValidIffRulesHold(pours: seq<FourSixPour>)
    ensures Validation(pours).isValid <==>
      |pours| > 0
      && !OffTarget(AmountSum(pours), BASE_WATER)
      && !OffTarget(Validation(pours).phase1Total, PHASE_1_TARGET)
      && !OffTarget(Validation(pours).phase2Total, PHASE_2_TARGET)
      && AllAmountsPositive(pours)
      && TimesStrictlyIncrease(pours)
  {
    AmountErrorsEmpty(pours);
    TimingErrorsEmpty(pours);
  }

  /** Adjacent increase gives increase between any two pours. */
  lemma {:induction false} IncreasingTimesAreSorted(pours: seq<FourSixPour>, i: nat, j: nat)
    requires TimesStrictlyIncrease(pours)
    requires i < j < |pours|
    ensures pours[i].timeSeconds < pours[j].timeSeconds
    decreases j - i
  {
    assert StartsAfterPrevious(pours, j);
    if i < j - 1 {
      IncreasingTimesAreSorted(pours, i, j - 1);
    }
  }

  /** A valid list is within 0.1 g of 300 / 120 / 180, all positive, and its times are strictly sorted. */
  lemma {:induction false} ValidMeansWithinTolerance(pours: seq<FourSixPour>)
    requires Validation(pours).isValid
    ensures |pours| > 0
    ensures Abs(AmountSum(pours) - 300.0) <= 0.1
    ensures Abs(Validation(pours).phase1Total - 120.0) <= 0.1
    ensures Abs(Validation(pours).phase2Total - 180.0) <= 0.1
    ensures forall i :: 0 <= i < |pours| ==> pours[i].amount > 0.0
    ensures forall i, j :: 0 <= i < j < |pours| ==> pours[i].timeSeconds < pours[j].timeSeconds
  {
    ValidIffRulesHold(pours);
    forall i: nat, j: nat | i < j < |pours|
      ensures pours[i].timeSeconds < pours[j].timeSeconds
    {
      IncreasingTimesAreSorted(pours, i, j);
    }
  }

  /** Position of an error kind in the fixed reporting order. */
  function Rank(e: ValidationError): nat {
    match e
    case NoPours => 0
    case TotalMismatch(_) => 1
    case Phase1Mismatch(_) => 2
    case Phase2Mismatch(_) => 3
    case AmountNotPositive(_) => 4
    case TimeNotAfter(_, _) => 5
  }

  predicate RankSorted(errors: seq<ValidationError>) {
    forall a, b :: 0 <= a < b < |errors| ==> Rank(errors[a]) <= Rank(errors[b])
  }

  lemma {:induction false} RankSortedConcat(xs: seq<ValidationError>, ys: seq<ValidationError>)
    requires RankSorted(xs) && RankSorted(ys)
    requires forall e, f :: e in xs && f in ys ==> Rank(e) <= Rank(f)
    ensures RankSorted(xs + ys)
  {
    var zs := xs + ys;
    forall a, b | 0 <= a < b < |zs|
      ensures Rank(zs[a]) <= Rank(zs[b])
    {
      if b < |xs| {
        assert zs[a] == xs[a] && zs[b] == xs[b];
      } else if a >= |xs| {
        assert zs[a] == ys[a - |xs|] && zs[b] == ys[b - |xs|];
      } else {
        assert zs[a] == xs[a] && zs[b] == ys[b - |xs|];
        assert xs[a] in xs && ys[b - |xs|] in ys;
      }
    }
  }

  /** Errors come as total, Phase 1, Phase 2, per-pour amounts, then timing. */
  lemma {:induction false} ErrorsInFixedOrder(pours: seq<FourSixPour>)
    ensures RankSorted(Validation(pours).errors)
  {
    if |pours| > 0 {
      var head := TotalErrors(AmountSum(pours), Phase1Total(pours), Phase2Total(pours));
      var amounts := AmountErrors(pours);
      var timing := TimingErrors(pours);
      AmountErrorsExact(pours);
      TimingErrorsExact(pours);
      assert forall e :: e in head ==> 1 <= Rank(e) <= 3;
      assert RankSorted(amounts);
      assert RankSorted(timing);
      RankSortedConcat(head, amounts);
      RankSortedConcat(head + amounts, timing);
    }
  }

  /** Sufficient conditions for validity, checked at a known boundary b. */
  lemma {:induction false} ValidWhenRulesHoldAt(pours: seq<FourSixPour>, b: nat)
    requires Reaches(pours, b)
    requires forall j :: 0 <= j < b ==> !Reaches(pours, j)
    requires !OffTarget(AmountSum(pours), BASE_WATER)
    requires !OffTarget(Cumulative(pours, b), PHASE_1_TARGET)
    requires !OffTarget(AmountSum(pours) - Cumulative(pours, b), PHASE_2_TARGET)
    requires AllAmountsPositive(pours)
    requires TimesStrictlyIncrease(pours)
    ensures Validation(pours).isValid
    ensures Validation(pours).phase1Total == Cumulative(pours, b)
  {
    ReachedBoundaryEndsPhase1(pours, b);
    AmountSumSplit(pours, b + 1);
    ValidIffRulesHold(pours);
  }
}
