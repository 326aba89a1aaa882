/**
 * Brewing schedules (src/utils/coffeeCalculations.ts): total water from the coffee dose, the three
 * step generators, the brew-method table and its lookup, and the caller's "positive water" guard.
 *
 * Each schedule is specified by a function; the 4:6 generator, which scans and accumulates in
 * loops, is a method proved equal to its function.
 */
module CoffeeCalculations {
  import opened CoffeeTypes
  import opened Decimal
  import opened Pours
  import opened FourSixValidator
  import opened PresetStorage

  /** `calculateTotalWater`: grams of water for a dose at a ratio (water per gram of coffee). */
  function CalculateTotalWater(coffeeAmount: real, ratio: real): (r: real)
    ensures ratio != 0.0 ==> r / ratio == coffeeAmount
    ensures coffeeAmount != 0.0 ==> r / coffeeAmount == ratio
    ensures coffeeAmount > 0.0 && ratio > 0.0 ==> r > 0.0
  {
    coffeeAmount * ratio
  }

  // ----- shape of a schedule -----

  /** Sum of the step amounts, accumulated left to right. */
  function WaterSum(steps: seq<BrewStep>): real
    decreases |steps|
  {
    if steps == [] then 0.0 else WaterSum(steps[..|steps| - 1]) + steps[|steps| - 1].waterAmount
  }

  /** Steps are numbered 1, 2, 3, ... in order. */
  predicate Numbered(steps: seq<BrewStep>) {
    forall i :: 0 <= i < |steps| ==> steps[i].stepNumber == i + 1
  }

  /** Every step's cumulative water is the sum of the amounts poured so far. */
  predicate RunningTotals(steps: seq<BrewStep>) {
    forall i :: 0 <= i < |steps| ==> steps[i].cumulativeWater == WaterSum(steps[..i + 1])
  }

  /** Step start times strictly increase. */
  predicate TimesIncrease(steps: seq<BrewStep>) {
    forall i, j :: 0 <= i < j < |steps| ==> steps[i].timeSeconds < steps[j].timeSeconds
  }

  // ----- 4:6 -----

  const PHASE_1_LABEL: string := "40% phase - affects sweetness"
  const PHASE_2_LABEL: string := "60% phase - affects strength"

  /** The text of a preset step: its number and the phase it belongs to. */
  function PourDescription(n: nat, isPhase1: bool): string {
    "Pour " + NatToString(n) + " (" + (if isPhase1 then PHASE_1_LABEL else PHASE_2_LABEL) + ")"
  }

  /** A step's text tells its phase: the two descriptions of one step differ. */
  lemma PourDescriptionTellsPhase(n: nat)
    ensures PourDescription(n, true) != PourDescription(n, false)
  {
    var k := |"Pour " + NatToString(n) + " ("|;
    assert PourDescription(n, true)[k] == '4';
    assert PourDescription(n, false)[k] == '6';
  }

  /**
   * The preset path of `generate46Steps`: one step per pour, amounts scaled by totalWater / 300,
   * times copied, cumulative water the scaled base-unit running total, and steps up to the
   * boundary (none when the threshold is never reached) labelled phase 1.
   */
  function PresetSteps(pours: seq<FourSixPour>, totalWater: real): (steps: seq<BrewStep>)
    ensures |steps| == |pours|
  {
    StepsUpTo(pours, totalWater / BASE_WATER, Phase1Index(pours), |pours|)
  }

  /** The first n steps of a preset scaled by `scale`, labelled phase 1 up to the given boundary. */
  function StepsUpTo(pours: seq<FourSixPour>, scale: real, boundary: int, n: nat): (steps: seq<BrewStep>)
    requires n <= |pours|
    ensures |steps| == n
  {
    if n == 0 then [] else StepsUpTo(pours, scale, boundary, n - 1) + [PresetStep(pours, scale, boundary, n - 1)]
  }

  /** Step i of the first n is built from pour i. */
  lemma {:induction false} StepsUpToAt(pours: seq<FourSixPour>, scale: real, boundary: int, n: nat, i: nat)
    requires i < n <= |pours|
    ensures StepsUpTo(pours, scale, boundary, n)[i] == PresetStep(pours, scale, boundary, i)
    decreases n
  {
    if i < n - 1 {
      StepsUpToAt(pours, scale, boundary, n - 1, i);
    }
  }

  /** Step i of a preset schedule is built from pour i. */
  lemma PresetStepAt(pours: seq<FourSixPour>, totalWater: real, i: nat)
    requires i < |pours|
    ensures PresetSteps(pours, totalWater)[i] == PresetStep(pours, totalWater / BASE_WATER, Phase1Index(pours), i)
  {
    StepsUpToAt(pours, totalWater / BASE_WATER, Phase1Index(pours), |pours|, i);
  }

  /** Step i of a preset scaled by `scale`, given the phase-1 boundary. */
  function PresetStep(pours: seq<FourSixPour>, scale: real, boundary: int, i: nat): BrewStep
    requires i < |pours|
  {
    BrewStep(i + 1, pours[i].amount * scale, Cumulative(pours, i) * scale,
             pours[i].timeSeconds, PourDescription(i + 1, i <= boundary))
  }

  /** The hard-coded 4:6 pattern used when a preset id is given but not found. */
  function FallbackSteps(totalWater: real): seq<BrewStep> {
    var pour1 := totalWater * 0.1667;
    var pour2 := totalWater * 0.2333;
    var pour3 := totalWater * 0.3;
    var pour4 := totalWater * 0.3;
    [
      BrewStep(1, pour1, pour1, 0, "First pour (40% phase - affects sweetness)"),
      BrewStep(2, pour2, pour1 + pour2, 45, "Second pour (40% phase - affects sweetness)"),
      BrewStep(3, pour3, pour1 + pour2 + pour3, 90, "Third pour (60% phase - affects strength)"),
      BrewStep(4, pour4, totalWater, 135, "Fourth pour (60% phase - affects strength)")
    ]
  }

  /**
   * Which preset `generate46Steps` follows: the built-in original when no id (or an empty one)
   * is given, otherwise the first loaded preset with that id, or none.
   */
  function ResolvePreset(stored: StoredValue, presetId: Option<string>): Option<FourSixPreset> {
    if presetId.Some? && presetId.value != "" then GetPresetById(stored, presetId.value)
    else Some(DefaultPresets()[0])
  }

  /** The schedule `generate46Steps` returns. */
  function Steps46(stored: StoredValue, totalWater: real, presetId: Option<string>): seq<BrewStep> {
    match ResolvePreset(stored, presetId)
    case None => FallbackSteps(totalWater)
    case Some(preset) => PresetSteps(preset.pours, totalWater)
  }

  /** `generate46Steps`, reading presets from the store. */
  method Generate46Steps(totalWater: real, presetId: Option<string>, store: PresetStore) returns (steps: seq<BrewStep>)
    ensures steps == Steps46(store.stored, totalWater, presetId)
  {
    var preset := ResolvePreset(store.stored, presetId);
    if preset.None? {
      return FallbackSteps(totalWater);
    }
    var scale := totalWater / BASE_WATER;
    var phase1Index := ScanPhase1Index(preset.value.pours);
    steps := ScalePours(preset.value.pours, scale, phase1Index);
  }

  /** The `map` of `generate46Steps`: scale each pour, carry the running water, label the phase. */
  method ScalePours(pours: seq<FourSixPour>, scale: real, phase1Index: int) returns (steps: seq<BrewStep>)
    ensures steps == StepsUpTo(pours, scale, phase1Index, |pours|)
  {
    var cumulativeWater := 0.0;
    steps := [];
    var index := 0;
    while index < |pours|
      invariant 0 <= index <= |pours|
      invariant cumulativeWater == AmountSum(pours[..index]) * scale
      invariant steps == StepsUpTo(pours, scale, phase1Index, index)
    {
      ScaleStep(pours, scale, index, cumulativeWater);
      StepsUpToSnoc(pours, scale, phase1Index, index);
      var scaledAmount := pours[index].amount * scale;
      cumulativeWater := cumulativeWater + scaledAmount;
      var isPhase1 := index <= phase1Index;
      var step := BrewStep(index + 1, scaledAmount, cumulativeWater, pours[index].timeSeconds,
                           PourDescription(index + 1, isPhase1));
      steps := steps + [step];
      index := index + 1;
    }
  }

  /** One turn of the `map`: adding the scaled amount to the running water gives the next scaled running total. */
  lemma ScaleStep(pours: seq<FourSixPour>, scale: real, index: nat, cumulativeWater: real)
    requires index < |pours|
    requires cumulativeWater == AmountSum(pours[..index]) * scale
    ensures cumulativeWater + pours[index].amount * scale == Cumulative(pours, index) * scale
  {
    AmountSumStep(pours, index + 1);
    Distributes(AmountSum(pours[..index]), pours[index].amount, scale);
  }

  /** The first n + 1 steps are the first n and step n. */
  lemma StepsUpToSnoc(pours: seq<FourSixPour>, scale: real, boundary: int, n: nat)
    requires n < |pours|
    ensures StepsUpTo(pours, scale, boundary, n + 1) ==
      StepsUpTo(pours, scale, boundary, n) + [PresetStep(pours, scale, boundary, n)]
  {
  }

  // ----- Hoffmann and single pour -----

  /** `generateHoffmanSteps`: a 20 % bloom then four 20 % pours. */
  function HoffmanSteps(totalWater: real): seq<BrewStep> {
    var bloom := totalWater * 0.2;
    var pour2 := totalWater * 0.2;
    var pour3 := totalWater * 0.2;
    var pour4 := totalWater * 0.2;
    var pour5 := totalWater * 0.2;
    [
      BrewStep(1, bloom, bloom, 0, "Bloom - swirl gently at 10-15s"),
      BrewStep(2, pour2, bloom + pour2, 45, "Pour to 40% total"),
      BrewStep(3, pour3, bloom + pour2 + pour3, 70, "Pour to 60% total"),
      BrewStep(4, pour4, bloom + pour2 + pour3 + pour4, 90, "Pour to 80% total"),
      BrewStep(5, pour5, totalWater, 110, "Pour to 100% total - swirl at 2:00")
    ]
  }

  /** `generateSinglePourSteps`: everything in one pour at time 0. */
  function SinglePourSteps(totalWater: real): seq<BrewStep> {
    [BrewStep(1, totalWater, totalWater, 0, "Pour all water in a slow, continuous stream")]
  }

  // ----- brew methods -----

  /** `brewMethods`, with each generator named by its kind. */
  function BrewMethods(): seq<BrewMethod> {
    [
      BrewMethod("4-6", "4:6 Method", "Tetsu Kasuya's 4:6 method - 4 pours with progressive volumes",
        Some("Tetsu Kasuya (2016 World Brewers Cup Champion)"), Some("https://projectbarista.com/4-6-method-recipe/"),
        210, FourSix),
      BrewMethod("hoffman", "Hoffman Method", "James Hoffmann's 1 Cup V60 method - 5 equal pours (20% each)",
        Some("James Hoffmann"), Some("https://www.youtube.com/watch?v=1oB1oDrDkHM"),
        180, Hoffman),
      BrewMethod("single-pour", "Single Pour", "Simple continuous pour method",
        None, None,
        180, SinglePour)
    ]
  }

  /** `find(method => method.id === id)` over a method list. */
  function FindMethod(methods: seq<BrewMethod>, id: string): (r: Option<BrewMethod>)
    ensures r.Some? ==> r.value in methods && r.value.id == id
    ensures r.None? <==> forall m :: m in methods ==> m.id != id
    decreases |methods|
  {
    if methods == [] then None
    else if methods[0].id == id then Some(methods[0])
    else FindMethod(methods[1..], id)
  }

  /** `getBrewMethod`. */
  function GetBrewMethod(id: string): (r: Option<BrewMethod>)
    ensures r.Some? ==> r.value.id == id && r.value in BrewMethods()
    ensures r.Some? <==> id == "4-6" || id == "hoffman" || id == "single-pour"
  {
    var methods := BrewMethods();
    assert methods[0].id == "4-6" && methods[1].id == "hoffman" && methods[2].id == "single-pour";
    FindMethod(methods, id)
  }

  /** Calls a method's generator; only the 4:6 generator looks at the preset id. */
  method GenerateSteps(brewMethod: BrewMethod, totalWater: real, presetId: Option<string>, store: PresetStore)
    returns (steps: seq<BrewStep>)
    ensures steps == Schedule(store.stored, brewMethod.kind, totalWater, presetId)
  {
    match brewMethod.kind
    case FourSix => steps := Generate46Steps(totalWater, presetId, store);
    case Hoffman => steps := HoffmanSteps(totalWater);
    case SinglePour => steps := SinglePourSteps(totalWater);
  }

  function Schedule(stored: StoredValue, kind: MethodKind, totalWater: real, presetId: Option<string>): seq<BrewStep> {
    match kind
    case FourSix => Steps46(stored, totalWater, presetId)
    case Hoffman => HoffmanSteps(totalWater)
    case SinglePour => SinglePourSteps(totalWater)
  }

  /** The app's `updateBrewSteps`: no steps for an unknown method or a non-positive amount of water. */
  method UpdateBrewSteps(methodId: string, totalWater: real, presetId: Option<string>, store: PresetStore)
    returns (steps: seq<BrewStep>)
    ensures GetBrewMethod(methodId).None? || totalWater <= 0.0 ==> steps == []
    ensures GetBrewMethod(methodId).Some? && totalWater > 0.0 ==>
      steps == Schedule(store.stored, GetBrewMethod(methodId).value.kind, totalWater, presetId)
  {
    var brewMethod := GetBrewMethod(methodId);
    if brewMethod.Some? && totalWater > 0.0 {
      steps := GenerateSteps(brewMethod.value, totalWater, presetId, store);
    } else {
      steps := [];
    }
  }

  // ----- properties of the schedules -----

  /** Appending a step whose cumulative water extends the running sum keeps running totals. */
  lemma {:induction false} RunningTotalsSnoc(steps: seq<BrewStep>, step: BrewStep)
    requires RunningTotals(steps)
    requires step.cumulativeWater == WaterSum(steps) + step.waterAmount
    ensures RunningTotals(steps + [step])
  {
    var all := steps + [step];
    forall i | 0 <= i < |all|
      ensures all[i].cumulativeWater == WaterSum(all[..i + 1])
    {
      if i < |steps| {
        assert all[..i + 1] == steps[..i + 1];
      } else {
        assert all[..i + 1] == all;
        assert all[..|all| - 1] == steps;
      }
    }
  }

  /** Preset steps: numbered from 1, amounts scaled by totalWater / 300, times copied unscaled. */
  lemma {:induction false} PresetStepsShape(pours: seq<FourSixPour>, totalWater: real)
    ensures var steps := PresetSteps(pours, totalWater);
      Numbered(steps) &&
      (forall i :: 0 <= i < |steps| ==> steps[i].waterAmount * BASE_WATER == pours[i].amount * totalWater) &&
      (forall i :: 0 <= i < |steps| ==> steps[i].timeSeconds == pours[i].timeSeconds)
  {
    var steps := PresetSteps(pours, totalWater);
    forall i | 0 <= i < |steps|
      ensures steps[i].stepNumber == i + 1
      ensures steps[i].waterAmount * BASE_WATER == pours[i].amount * totalWater
      ensures steps[i].timeSeconds == pours[i].timeSeconds
    {
      PresetStepAt(pours, totalWater, i);
      ScaleBack(pours[i].amount, totalWater);
    }
  }

  /** Scaling to totalWater and multiplying back by the base undoes the division. */
  lemma ScaleBack(amount: real, totalWater: real)
    ensures amount * (totalWater / BASE_WATER) * BASE_WATER == amount * totalWater
  {
  }

  lemma Distributes(a: real, b: real, c: real)
    ensures a * c + b * c == (a + b) * c
  {
  }

  lemma ScaleMonotone(a: real, b: real, scale: real)
    requires a <= b && scale >= 0.0
    ensures a * scale <= b * scale
  {
  }

  /** A preset step's cumulative water adds its scaled amount to the previous step's. */
  lemma PresetCumulativeStep(pours: seq<FourSixPour>, totalWater: real, i: nat)
    requires 0 < i < |pours|
    ensures var steps := PresetSteps(pours, totalWater);
      steps[i].cumulativeWater == steps[i - 1].cumulativeWater + steps[i].waterAmount
  {
    PresetStepAt(pours, totalWater, i);
    PresetStepAt(pours, totalWater, i - 1);
    AmountSumStep(pours, i + 1);
    Distributes(Cumulative(pours, i - 1), pours[i].amount, totalWater / BASE_WATER);
  }

  /** Each preset step's cumulative water is the sum of the scaled amounts so far. */
  lemma {:induction false} PresetStepsRunningTotals(pours: seq<FourSixPour>, totalWater: real)
    ensures RunningTotals(PresetSteps(pours, totalWater))
  {
    var steps := PresetSteps(pours, totalWater);
    if steps != [] {
      PresetStepAt(pours, totalWater, 0);
      AmountSumStep(pours, 1);
      assert pours[..0] == [];
      assert Cumulative(pours, 0) == pours[0].amount;
    }
    forall i | 0 < i < |steps|
      ensures steps[i].cumulativeWater == steps[i - 1].cumulativeWater + steps[i].waterAmount
    {
      PresetCumulativeStep(pours, totalWater, i);
    }
    BuildRunningTotals(steps);
  }

  /** With non-negative amounts and water, cumulative water never decreases. */
  lemma {:induction false} PresetCumulativeNondecreasing(pours: seq<FourSixPour>, totalWater: real, i: nat, j: nat)
    requires forall k :: 0 <= k < |pours| ==> pours[k].amount >= 0.0
    requires totalWater >= 0.0
    requires i <= j < |pours|
    ensures PresetSteps(pours, totalWater)[i].cumulativeWater <= PresetSteps(pours, totalWater)[j].cumulativeWater
  {
    var scale := totalWater / BASE_WATER;
    var a := Cumulative(pours, i);
    var b := Cumulative(pours, j);
    assert a <= b by {
      AmountSumMonotone(pours, i + 1, j + 1);
    }
    PresetStepAt(pours, totalWater, i);
    PresetStepAt(pours, totalWater, j);
    ScaleMonotone(a, b, scale);
  }

  /** The last cumulative is the scaled preset total, so it is the requested water when the preset holds 300 g. */
  lemma {:induction false} PresetLastCumulative(pours: seq<FourSixPour>, totalWater: real)
    requires pours != []
    ensures var steps := PresetSteps(pours, totalWater);
      steps[|steps| - 1].cumulativeWater * BASE_WATER == AmountSum(pours) * totalWater
    ensures AmountSum(pours) == BASE_WATER ==>
      PresetSteps(pours, totalWater)[|pours| - 1].cumulativeWater == totalWater
  {
    PresetStepAt(pours, totalWater, |pours| - 1);
    assert pours[..|pours|] == pours;
    ScaleBack(AmountSum(pours), totalWater);
  }

  /** A preset step is labelled phase 1 exactly when it is at or before the first pour reaching the threshold. */
  lemma {:induction false} PresetPhaseLabels(pours: seq<FourSixPour>, totalWater: real, i: nat)
    requires i < |pours|
    ensures PresetSteps(pours, totalWater)[i].description == PourDescription(i + 1, true) <==>
      exists k :: 0 <= k < |pours| && i <= k && Reaches(pours, k) && forall j :: 0 <= j < k ==> !Reaches(pours, j)
    ensures (forall k :: 0 <= k < |pours| ==> !Reaches(pours, k)) ==>
      PresetSteps(pours, totalWater)[i].description == PourDescription(i + 1, false)
  {
    PresetStepAt(pours, totalWater, i);
    PourDescriptionTellsPhase(i + 1);
    var b := Phase1Index(pours);
    if b >= 0 && i <= b {
      assert 0 <= b < |pours| && i <= b && Reaches(pours, b) && forall j :: 0 <= j < b ==> !Reaches(pours, j);
    } else if b >= 0 {
      forall k | 0 <= k < |pours| && i <= k && Reaches(pours, k)
        ensures exists j :: 0 <= j < k && Reaches(pours, j)
      {
        assert b < k;
      }
    }
  }

  /**
   * The fallback runs only when a non-empty id is given and no loaded preset carries it; no id, or
   * an empty one, gives the original preset's steps.
   */
  lemma {:induction false} FallbackOnlyForUnknownId(stored: StoredValue, presetId: Option<string>, totalWater: real)
    ensures ResolvePreset(stored, presetId).None? <==>
      presetId.Some? && presetId.value != "" && forall p :: p in LoadPresets(stored) ==> p.id != presetId.value
    ensures presetId.None? || presetId.value == "" ==>
      Steps46(stored, totalWater, presetId) == PresetSteps(OriginalPours(), totalWater)
  {
  }

  /** Asking for a built-in preset always yields that preset's scaled steps, whatever customs are stored. */
  lemma {:induction false} BuiltinPresetSchedule(stored: StoredValue, k: nat, totalWater: real)
    requires k < |DefaultPresets()|
    ensures Steps46(stored, totalWater, Some(DefaultPresets()[k].id)) == PresetSteps(DefaultPresets()[k].pours, totalWater)
  {
    var preset := DefaultPresets()[k];
    assert preset.id != "";
    BuiltinsShadowCustoms(stored, k);
    assert ResolvePreset(stored, Some(preset.id)) == Some(preset);
  }

  /** A built-in preset's schedule ends at exactly the requested water. */
  lemma {:induction false} BuiltinPresetEndsAtTotal(k: nat, totalWater: real)
    requires k < |DefaultPresets()|
    ensures var pours := DefaultPresets()[k].pours;
      pours != [] && PresetSteps(pours, totalWater)[|pours| - 1].cumulativeWater == totalWater
  {
    var pours := DefaultPresets()[k].pours;
    DefaultPresetsAreValid(k);
    assert pours != [];
    PresetLastCumulative(pours, totalWater);
  }

  /** Running totals hold when each step's cumulative adds its amount to the previous cumulative. */
  lemma {:induction false} BuildRunningTotals(steps: seq<BrewStep>)
    requires steps != [] ==> steps[0].cumulativeWater == steps[0].waterAmount
    requires forall i :: 0 < i < |steps| ==>
      steps[i].cumulativeWater == steps[i - 1].cumulativeWater + steps[i].waterAmount
    ensures RunningTotals(steps)
    decreases |steps|
  {
    if steps != [] {
      var init := steps[..|steps| - 1];
      BuildRunningTotals(init);
      if init != [] {
        assert init[|init| - 1].cumulativeWater == WaterSum(init[..|init|]);
        assert init[..|init|] == init;
      }
      RunningTotalsSnoc(init, steps[|steps| - 1]);
      assert init + [steps[|steps| - 1]] == steps;
    }
  }

  /** The fallback: 4 steps at 0/45/90/135 s, running totals, ending at the requested water. */
  lemma {:induction false} FallbackStepsFacts(totalWater: real)
    ensures var steps := FallbackSteps(totalWater);
      |steps| == 4 && Numbered(steps) && RunningTotals(steps) && TimesIncrease(steps) &&
      steps[3].cumulativeWater == totalWater &&
      steps[0].timeSeconds == 0 && steps[1].timeSeconds == 45 && steps[2].timeSeconds == 90 && steps[3].timeSeconds == 135
  {
    var steps := FallbackSteps(totalWater);
    BuildRunningTotals(steps);
  }

  /** The fallback's rounded shares stay within 0.0001 x totalWater of the original preset's scaled pours. */
  lemma {:induction false} FallbackApproximatesOriginal(totalWater: real, i: nat)
    requires totalWater >= 0.0 && i < 4
    ensures var fallback := FallbackSteps(totalWater)[i].waterAmount;
      var exact := PresetSteps(OriginalPours(), totalWater)[i].waterAmount;
      -0.0001 * totalWater <= fallback - exact <= 0.0001 * totalWater
  {
    PresetStepAmount(OriginalPours(), totalWater, i);
  }

  /** A preset step pours its pour's amount scaled by totalWater / 300. */
  lemma PresetStepAmount(pours: seq<FourSixPour>, totalWater: real, i: nat)
    requires i < |pours|
    ensures PresetSteps(pours, totalWater)[i].waterAmount == pours[i].amount * (totalWater / BASE_WATER)
  {
    PresetStepAt(pours, totalWater, i);
  }

  /** Hoffmann: 5 equal pours of a fifth at 0/45/70/90/110 s, running totals, ending at the requested water. */
  lemma {:induction false} HoffmanStepsFacts(totalWater: real)
    ensures var steps := HoffmanSteps(totalWater);
      |steps| == 5 && Numbered(steps) && RunningTotals(steps) && TimesIncrease(steps) &&
      (forall i :: 0 <= i < 5 ==> steps[i].waterAmount * 5.0 == totalWater) &&
      steps[4].cumulativeWater == totalWater &&
      steps[0].timeSeconds == 0 && steps[1].timeSeconds == 45 && steps[2].timeSeconds == 70 &&
      steps[3].timeSeconds == 90 && steps[4].timeSeconds == 110
  {
    var steps := HoffmanSteps(totalWater);
    BuildRunningTotals(steps);
  }

  /** Single pour: one step of all the water at time 0. */
  lemma {:induction false} SinglePourStepsFacts(totalWater: real)
    ensures var steps := SinglePourSteps(totalWater);
      |steps| == 1 && Numbered(steps) && RunningTotals(steps) &&
      steps[0].waterAmount == totalWater && steps[0].cumulativeWater == totalWater && steps[0].timeSeconds == 0
  {
    var steps := SinglePourSteps(totalWater);
    assert steps[..1] == steps;
    assert steps[..0] == [];
  }

  /** Every method's schedule ends at the requested water, except a custom 4:6 preset that does not hold 300 g. */
  lemma {:induction false} ScheduleEndsAtTotal(stored: StoredValue, kind: MethodKind, totalWater: real, presetId: Option<string>)
    requires kind == FourSix ==> match ResolvePreset(stored, presetId)
      case Some(p) => p.pours != [] && AmountSum(p.pours) == BASE_WATER
      case None => true
    ensures var steps := Schedule(stored, kind, totalWater, presetId);
      steps != [] && steps[|steps| - 1].cumulativeWater == totalWater
  {
    match kind
    case FourSix => Steps46EndsAtTotal(stored, totalWater, presetId);
    case Hoffman =>
      assert Schedule(stored, kind, totalWater, presetId) == HoffmanSteps(totalWater);
      HoffmanStepsFacts(totalWater);
    case SinglePour =>
      assert Schedule(stored, kind, totalWater, presetId) == SinglePourSteps(totalWater);
      SinglePourStepsFacts(totalWater);
  }

  lemma {:induction false} Steps46EndsAtTotal(stored: StoredValue, totalWater: real, presetId: Option<string>)
    requires match ResolvePreset(stored, presetId)
      case Some(p) => p.pours != [] && AmountSum(p.pours) == BASE_WATER
      case None => true
    ensures var steps := Steps46(stored, totalWater, presetId);
      steps != [] && steps[|steps| - 1].cumulativeWater == totalWater
  {
    match ResolvePreset(stored, presetId) {
      case None =>
        assert Steps46(stored, totalWater, presetId) == FallbackSteps(totalWater);
        FallbackStepsFacts(totalWater);
      case Some(p) =>
        assert Steps46(stored, totalWater, presetId) == PresetSteps(p.pours, totalWater);
        PresetLastCumulative(p.pours, totalWater);
    }
  }
}
