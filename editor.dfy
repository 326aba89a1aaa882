/**
 * The state logic of the 4:6 preset editor (src/components/FourSixPresetEditor.tsx): the name and
 * pour list being edited, the phase-1 marker, adding, removing and changing pours, the save guard
 * and the total shown under the list.
 *
 * The list edits are functions on the pour list (the new list each handler hands to `setPours`);
 * `PresetEditor` holds the component's state and its handlers update it. The lemmas say what each
 * edit does to the order of the times, to the total and to validity.
 */
module FourSixPresetEditor {
  import opened CoffeeTypes
  import opened Decimal
  import opened Pours
  import opened FourSixValidator
  import opened PresetStorage

  /** The pours a new preset starts from. */
  function InitialPours(): seq<FourSixPour> {
    [FourSixPour(50.0, 0), FourSixPour(70.0, 45), FourSixPour(90.0, 90), FourSixPour(90.0, 135)]
  }

  /** A new pour holds 50 g ... */
  const ADDED_POUR_AMOUNT: real := 50.0
  /** ... and starts 30 s after the last pour (at 0 s when there is none). */
  const ADDED_POUR_GAP: int := 30

  // ----- String.prototype.trim -----

  /** ECMAScript white space and line terminators, the characters `trim` removes. */
  predicate IsWhitespace(c: char) {
    c == '\t' || c == '\n' || c == '\U{000B}' || c == '\U{000C}' || c == '\r' || c == ' '
    || c == '\U{00A0}' || c == '\U{1680}' || ('\U{2000}' <= c <= '\U{200A}')
    || c == '\U{2028}' || c == '\U{2029}' || c == '\U{202F}' || c == '\U{205F}'
    || c == '\U{3000}' || c == '\U{FEFF}'
  }

  /** Drops leading white space: the result is a suffix, what was dropped is all white space. */
  function TrimStart(s: string): (r: string)
    ensures |r| <= |s| && r == s[|s| - |r|..]
    ensures r != [] ==> !IsWhitespace(r[0])
    ensures forall i :: 0 <= i < |s| - |r| ==> IsWhitespace(s[i])
    decreases |s|
  {
    if s != [] && IsWhitespace(s[0]) then TrimStart(s[1..]) else s
  }

  /** Drops trailing white space: the result is a prefix, what was dropped is all white space. */
  function TrimEnd(s: string): (r: string)
    ensures |r| <= |s| && r == s[..|r|]
    ensures r != [] ==> !IsWhitespace(r[|r| - 1])
    ensures forall i :: |r| <= i < |s| ==> IsWhitespace(s[i])
    decreases |s|
  {
    if s != [] && IsWhitespace(s[|s| - 1]) then TrimEnd(s[..|s| - 1]) else s
  }

  function Trim(s: string): string {
    TrimEnd(TrimStart(s))
  }

  /** A name trims to nothing exactly when it is all white space. */
  lemma TrimEmptyIff(s: string)
    ensures Trim(s) == [] <==> forall i :: 0 <= i < |s| ==> IsWhitespace(s[i])
  {
    var t := TrimStart(s);
    if Trim(s) == [] {
      assert t == [];
    } else if t != [] {
      assert s[|s| - |t|] == t[0];
    }
  }

  /** A trimmed name neither starts nor ends with white space, so trimming again changes nothing. */
  lemma TrimIdempotent(s: string)
    ensures Trim(s) != [] ==> !IsWhitespace(Trim(s)[0]) && !IsWhitespace(Trim(s)[|Trim(s)| - 1])
    ensures Trim(Trim(s)) == Trim(s)
  {
    var t := TrimStart(s);
    var r := TrimEnd(t);
    if r != [] {
      assert r[0] == t[0];
      assert TrimStart(r) == r;
    }
  }

  // ----- the list edits -----

  /** `handleAddPour`: the list with a 50 g pour appended 30 s after the last one. */
  function WithAddedPour(pours: seq<FourSixPour>): seq<FourSixPour> {
    var time := if pours == [] then 0 else pours[|pours| - 1].timeSeconds + ADDED_POUR_GAP;
    pours + [FourSixPour(ADDED_POUR_AMOUNT, time)]
  }

  /** `filter((_, i) => i !== index)`: every pour except the one at index. */
  function WithoutIndex(pours: seq<FourSixPour>, index: int): (r: seq<FourSixPour>)
    ensures 0 <= index < |pours| ==> r == pours[..index] + pours[index + 1..]
    ensures !(0 <= index < |pours|) ==> r == pours
    decreases |pours|
  {
    if pours == [] then []
    else
      var init := pours[..|pours| - 1];
      var last := pours[|pours| - 1];
      assert pours == init + [last];
      WithoutIndex(init, index) + (if index == |pours| - 1 then [] else [last])
  }

  /** The two fields an input box can edit. */
  datatype PourField = Amount | TimeSeconds

  /**
   * What an input box holds: its text, and what `parseFloat` and `parseInt` read from that text
   * (None where they give NaN).
   */
  datatype PourInput = PourInput(text: string, asFloat: Option<real>, asInt: Option<int>)

  /** The amount an input stands for: 0 for an empty box or unreadable text. */
  function AmountValue(input: PourInput): real {
    if input.text == "" || input.asFloat.None? then 0.0 else input.asFloat.value
  }

  /** The start time an input stands for: 0 for an empty box or unreadable text. */
  function TimeValue(input: PourInput): int {
    if input.text == "" || input.asInt.None? then 0 else input.asInt.value
  }

  /** `handlePourChange`: the list with one field of pour index set from the input. */
  function WithChangedPour(pours: seq<FourSixPour>, index: int, field: PourField, input: PourInput): seq<FourSixPour>
    requires 0 <= index < |pours|
  {
    var p := pours[index];
    pours[index := match field
      case Amount => FourSixPour(AmountValue(input), p.timeSeconds)
      case TimeSeconds => FourSixPour(p.amount, TimeValue(input))]
  }

  /** `preset?.id || \`custom-${Date.now()}\``: keep a non-empty id of the edited preset, else a time-stamped one. */
  function NewPresetId(editing: Option<FourSixPreset>, now: nat): (id: string)
    ensures id != ""
    ensures editing.Some? && editing.value.id != "" ==> id == editing.value.id
    ensures !(editing.Some? && editing.value.id != "") ==>
      |id| > 7 && id[..7] == "custom-" && AllDigits(id[7..]) && ParseDigits(id[7..]) == now
  {
    if editing.Some? && editing.value.id != "" then editing.value.id
    else
      var id := "custom-" + NatToString(now);
      assert id[7..] == NatToString(now);
      ParseNatToString(now);
      id
  }

  /** The preset `handleSave` writes: never a built-in, named by the trimmed name. */
  function SavedPreset(editing: Option<FourSixPreset>, name: string, pours: seq<FourSixPour>, now: nat): FourSixPreset {
    FourSixPreset(NewPresetId(editing, now), Trim(name), pours, false)
  }

  /** The editor's state: the name box, the pour list, and the preset it was opened on. */
  class PresetEditor {
    var name: string
    var pours: seq<FourSixPour>
    const editing: Option<FourSixPreset>

    /** Opens the editor on a preset (its name and pours), or on an unnamed copy of the original recipe. */
    constructor (editing: Option<FourSixPreset>)
      ensures this.editing == editing
      ensures name == (if editing.Some? then editing.value.name else "")
      ensures pours == (if editing.Some? then editing.value.pours else InitialPours())
    {
      this.editing := editing;
      name := if editing.Some? then editing.value.name else "";
      pours := if editing.Some? then editing.value.pours else InitialPours();
    }

    /** The total shown under the list: the two phase totals of the validator add up to it. */
    function TotalWater(): (total: real)
      reads this
      ensures pours != [] ==> total == Validation(pours).phase1Total + Validation(pours).phase2Total
      ensures pours == [] ==> total == 0.0
    {
      if pours == [] then 0.0
      else
        PhaseTotalsPartition(pours);
        AmountSum(pours)
    }

    /** The marker loop: the last pour of phase 1, or -1 when the threshold is never reached. */
    method Phase1EndIndex() returns (phase1EndIndex: int)
      ensures phase1EndIndex == Phase1Index(pours)
    {
      phase1EndIndex := ScanPhase1Index(pours);
    }

    /** The name box's `setName`. */
    method Rename(newName: string)
      modifies this
      ensures name == newName && pours == old(pours)
    {
      name := newName;
    }

    method AddPour()
      modifies this
      ensures pours == WithAddedPour(old(pours)) && name == old(name)
    {
      var time := 0;
      if |pours| > 0 {
        time := pours[|pours| - 1].timeSeconds + ADDED_POUR_GAP;
      }
      pours := pours + [FourSixPour(ADDED_POUR_AMOUNT, time)];
    }

    /** Removes a pour unless it is the only one: the list never becomes empty this way. */
    method RemovePour(index: int)
      modifies this
      ensures pours == (if |old(pours)| > 1 then WithoutIndex(old(pours), index) else old(pours))
      ensures |old(pours)| >= 1 ==> |pours| >= 1
      ensures name == old(name)
    {
      if |pours| > 1 {
        pours := WithoutIndex(pours, index);
      }
    }

    /** An index past the list makes the source throw, so callers pass an existing pour. */
    method ChangePour(index: int, field: PourField, input: PourInput)
      requires 0 <= index < |pours|
      modifies this
      ensures pours == WithChangedPour(old(pours), index, field, input) && name == old(name)
    {
      var p := pours[index];
      match field {
        case Amount =>
          pours := pours[index := FourSixPour(AmountValue(input), p.timeSeconds)];
        case TimeSeconds =>
          pours := pours[index := FourSixPour(p.amount, TimeValue(input))];
      }
    }

    /**
     * `handleSave`: does nothing unless the pours validate and the name is not blank; otherwise
     * appends the preset to the store (None: nothing was attempted).
     */
    method Save(store: PresetStore, now: nat) returns (outcome: Option<StoreOutcome>)
      modifies store
      ensures store.writeFails == old(store.writeFails)
      ensures !Validation(pours).isValid || Trim(name) == "" ==> outcome == None && store.stored == old(store.stored)
      ensures Validation(pours).isValid && Trim(name) != "" ==>
        outcome.Some? &&
        (old(store.writeFails) ==> store.stored == old(store.stored)) &&
        (!old(store.writeFails) ==>
          store.stored == Stored(CustomsAfterSave(old(store.stored), SavedPreset(editing, name, pours, now))))
      ensures Validation(pours).isValid && Trim(name) != "" ==>
        outcome == Some(if old(store.writeFails) then Failed("Failed to save preset") else Done)
    {
      var validation := ValidateFourSixPreset(pours);
      var trimmed := Trim(name);
      if !validation.isValid || trimmed == "" {
        return None;
      }
      var newPreset := FourSixPreset(NewPresetId(editing, now), trimmed, pours, false);
      var result := store.SavePreset(newPreset);
      outcome := Some(result);
    }
  }

  // ----- what the edits do -----

  /** The editor starts from a valid preset: the original recipe. */
  lemma InitialPoursValid()
    ensures InitialPours() == OriginalPours()
    ensures Validation(InitialPours()).isValid
  {
    OriginalPoursValid();
  }

  /** Adding a pour keeps the times strictly increasing and every amount positive, and adds 50 g. */
  lemma AddPourKeepsOrder(pours: seq<FourSixPour>)
    ensures TimesStrictlyIncrease(pours) ==> TimesStrictlyIncrease(WithAddedPour(pours))
    ensures AllAmountsPositive(pours) ==> AllAmountsPositive(WithAddedPour(pours))
    ensures AmountSum(WithAddedPour(pours)) == AmountSum(pours) + ADDED_POUR_AMOUNT
  {
    var r := WithAddedPour(pours);
    AmountSumAppend(pours, r[|pours|]);
    if TimesStrictlyIncrease(pours) {
      forall i | 0 < i < |r|
        ensures StartsAfterPrevious(r, i)
      {
        if i < |pours| {
          assert StartsAfterPrevious(pours, i);
        }
      }
    }
  }

  /** A valid preset is no longer valid after a pour is added: the total is 50 g over. */
  lemma AddPourBreaksValidity(pours: seq<FourSixPour>)
    requires Validation(pours).isValid
    ensures !Validation(WithAddedPour(pours)).isValid
    ensures TotalMismatch(AmountSum(pours) + ADDED_POUR_AMOUNT) in Validation(WithAddedPour(pours)).errors
  {
    var r := WithAddedPour(pours);
    assert !OffTarget(AmountSum(pours), BASE_WATER) by {
      ValidIffRulesHold(pours);
    }
    AmountSumAppend(pours, r[|pours|]);
    OverByAddedPour(AmountSum(pours), AmountSum(r));
    var errors := Validation(r).errors;
    assert errors[0] == TotalMismatch(AmountSum(r));
  }

  lemma OverByAddedPour(before: real, after: real)
    requires !OffTarget(before, BASE_WATER)
    requires after == before + ADDED_POUR_AMOUNT
    ensures OffTarget(after, BASE_WATER)
  {
  }

  /** Removing a pour keeps the remaining times strictly increasing. */
  lemma RemovePourKeepsOrder(pours: seq<FourSixPour>, index: int)
    requires TimesStrictlyIncrease(pours)
    ensures TimesStrictlyIncrease(WithoutIndex(pours, index))
  {
    var r := WithoutIndex(pours, index);
    if 0 <= index < |pours| {
      forall i | 0 < i < |r|
        ensures StartsAfterPrevious(r, i)
      {
        var a := if i - 1 < index then i - 1 else i;
        var b := if i < index then i else i + 1;
        assert r[i - 1] == pours[a] && r[i] == pours[b];
        IncreasingTimesAreSorted(pours, a, b);
      }
    }
  }

  /** Removing the pour at index takes its amount off the total and leaves one pour fewer. */
  lemma RemovePourTotal(pours: seq<FourSixPour>, index: int)
    requires 0 <= index < |pours|
    ensures |WithoutIndex(pours, index)| == |pours| - 1
    ensures AmountSum(WithoutIndex(pours, index)) == AmountSum(pours) - pours[index].amount
  {
    AmountSumConcat(pours[..index], pours[index + 1..]);
    AmountSumSplit(pours, index + 1);
    AmountSumStep(pours, index + 1);
  }

  /** Changing an amount moves the total by the difference; the input's value replaces the old amount. */
  lemma ChangeAmountTotal(pours: seq<FourSixPour>, index: int, input: PourInput)
    requires 0 <= index < |pours|
    ensures var r := WithChangedPour(pours, index, Amount, input);
      |r| == |pours| && r[index].amount == AmountValue(input) && r[index].timeSeconds == pours[index].timeSeconds &&
      AmountSum(r) == AmountSum(pours) - pours[index].amount + AmountValue(input)
  {
    var r := WithChangedPour(pours, index, Amount, input);
    RemovePourTotal(pours, index);
    RemovePourTotal(r, index);
    assert WithoutIndex(r, index) == WithoutIndex(pours, index);
  }

  /** Changing a start time leaves the amounts, so the totals and the phase-1 marker stay where they were. */
  lemma ChangeTimeKeepsPhases(pours: seq<FourSixPour>, index: int, input: PourInput)
    requires 0 <= index < |pours|
    ensures var r := WithChangedPour(pours, index, TimeSeconds, input);
      r[index].timeSeconds == TimeValue(input) &&
      AmountSum(r) == AmountSum(pours) &&
      Phase1Index(r) == Phase1Index(pours) &&
      Phase1Total(r) == Phase1Total(pours) &&
      Phase2Total(r) == Phase2Total(pours)
  {
    var r := WithChangedPour(pours, index, TimeSeconds, input);
    assert forall i :: 0 <= i < |r| ==> r[i].amount == pours[i].amount;
    SameAmountsSamePhases(r, pours);
  }

  /** Lists with the same amounts have the same total, marker and phase totals, whatever their times. */
  lemma SameAmountsSamePhases(xs: seq<FourSixPour>, ys: seq<FourSixPour>)
    requires |xs| == |ys| > 0
    requires forall i :: 0 <= i < |xs| ==> xs[i].amount == ys[i].amount
    ensures AmountSum(xs) == AmountSum(ys) && Phase1Index(xs) == Phase1Index(ys)
    ensures Phase1Total(xs) == Phase1Total(ys) && Phase2Total(xs) == Phase2Total(ys)
  {
    AmountSumSameAmounts(xs, ys);
    SameAmountsSameBoundary(xs, ys);
    var k := Phase1End(xs);
    assert Phase1End(ys) == k;
    AmountSumSameAmounts(xs[..k + 1], ys[..k + 1]);
    AmountSumSameAmounts(xs[k + 1..], ys[k + 1..]);
  }

  /** Ids made at different times differ, and none of them is a built-in's. */
  lemma CustomIdsDistinct(now1: nat, now2: nat)
    ensures now1 != now2 ==> NewPresetId(None, now1) != NewPresetId(None, now2)
    ensures !IsBuiltinId(NewPresetId(None, now1))
  {
    var id := NewPresetId(None, now1);
    assert id[0] == 'c';
    forall p | p in DefaultPresets()
      ensures p.id != id
    {
      assert p.id[0] != 'c';
    }
  }

  /**
   * After a save that went through and a write that succeeded, the last loaded preset is the
   * saved one: valid, not a built-in, under the trimmed non-blank name.
   */
  lemma SavedPresetLoads(stored: StoredValue, editing: Option<FourSixPreset>, name: string, pours: seq<FourSixPour>, now: nat)
    requires Validation(pours).isValid && Trim(name) != ""
    ensures var after := LoadPresets(Stored(CustomsAfterSave(stored, SavedPreset(editing, name, pours, now))));
      var last := after[|after| - 1];
      last.pours == pours && Validation(last.pours).isValid && !last.isDefault &&
      last.name == Trim(name) && last.name != "" && last.id != ""
  {
    SaveThenLoad(stored, SavedPreset(editing, name, pours, now));
  }

  /** A new preset's time-stamped id is found again by id when no loaded preset already carries it. */
  lemma NewPresetFoundById(stored: StoredValue, name: string, pours: seq<FourSixPour>, now: nat)
    requires forall q :: q in LoadPresets(stored) ==> q.id != NewPresetId(None, now)
    ensures var preset := SavedPreset(None, name, pours, now);
      GetPresetById(Stored(CustomsAfterSave(stored, preset)), preset.id) == Some(preset)
  {
    SaveThenGet(stored, SavedPreset(None, name, pours, now));
  }
}
