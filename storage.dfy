/**
 * The preset store (src/utils/presetStorage.ts): three built-in presets and a custom list kept
 * under one key of an external key-value store.
 *
 * The store is a `PresetStore` object whose `stored` field is what the key holds and whose
 * `writeFails` flag says whether writing raises (quota exhausted, storage disabled). Reads are
 * functions of the stored value; save and delete are methods that rewrite the custom list.
 */
module PresetStorage {
  import opened CoffeeTypes
  import opened Pours
  import opened FourSixValidator

  /** What reading the key yields. */
  datatype StoredValue =
    | Absent                              // nothing (or an empty string) under the key
    | Unreadable                          // the read raised, or the text did not parse
    | Stored(customs: seq<FourSixPreset>) // the parsed custom list

  /** Save and delete either complete or raise an error carrying this message. */
  datatype StoreOutcome = Done | Failed(message: string)

  /** The built-ins: the original 4:6, a gentle five-pour and a bold three-pour pattern. */
  function DefaultPresets(): seq<FourSixPreset> {
    [
      FourSixPreset("default-46", "Original 4:6", OriginalPours(), true),
      FourSixPreset("gentle-46", "Gentle (5 pours)", GentlePours(), true),
      FourSixPreset("bold-46", "Bold (3 pours)", BoldPours(), true)
    ]
  }

  function OriginalPours(): seq<FourSixPour> {
    [FourSixPour(50.0, 0), FourSixPour(70.0, 45), FourSixPour(90.0, 90), FourSixPour(90.0, 135)]
  }

  function GentlePours(): seq<FourSixPour> {
    [FourSixPour(60.0, 0), FourSixPour(60.0, 45), FourSixPour(60.0, 90), FourSixPour(60.0, 120), FourSixPour(60.0, 150)]
  }

  function BoldPours(): seq<FourSixPour> {
    [FourSixPour(120.0, 0), FourSixPour(90.0, 60), FourSixPour(90.0, 120)]
  }

  /** `loadPresets`: the built-ins, then whatever customs are stored; never fails. */
  function LoadPresets(stored: StoredValue): (r: seq<FourSixPreset>)
    ensures |r| >= |DefaultPresets()| && r[..|DefaultPresets()|] == DefaultPresets()
    ensures stored.Stored? ==> r[|DefaultPresets()|..] == stored.customs
    ensures !stored.Stored? ==> r == DefaultPresets()
  {
    match stored
    case Stored(customs) => DefaultPresets() + customs
    case _ => DefaultPresets()
  }

  /** `filter(p => !p.isDefault)`. */
  function NonDefault(presets: seq<FourSixPreset>): (r: seq<FourSixPreset>)
    ensures |r| <= |presets|
    decreases |presets|
  {
    if presets == [] then []
    else (if presets[0].isDefault then [] else [presets[0]]) + NonDefault(presets[1..])
  }

  /** `filter(p => !p.isDefault && p.id !== id)`. */
  function NonDefaultExcept(presets: seq<FourSixPreset>, id: string): (r: seq<FourSixPreset>)
    ensures |r| <= |presets|
    decreases |presets|
  {
    if presets == [] then []
    else (if presets[0].isDefault || presets[0].id == id then [] else [presets[0]]) + NonDefaultExcept(presets[1..], id)
  }

  /** The custom list `savePreset` writes: the loaded non-defaults with the preset pushed on the end. */
  function CustomsAfterSave(stored: StoredValue, preset: FourSixPreset): seq<FourSixPreset> {
    NonDefault(LoadPresets(stored)) + [preset]
  }

  /** The custom list `deletePreset` writes. */
  function CustomsAfterDelete(stored: StoredValue, id: string): seq<FourSixPreset> {
    NonDefaultExcept(LoadPresets(stored), id)
  }

  /** `find(p => p.id === id)`: the first preset with that id. */
  function Find(presets: seq<FourSixPreset>, id: string): (r: Option<FourSixPreset>)
    ensures r.Some? ==> r.value in presets && r.value.id == id
    ensures r.None? <==> forall p :: p in presets ==> p.id != id
    decreases |presets|
  {
    if presets == [] then None
    else if presets[0].id == id then Some(presets[0])
    else Find(presets[1..], id)
  }

  /** `getPresetById`: the first loaded preset with that id, built-ins first. */
  function GetPresetById(stored: StoredValue, id: string): Option<FourSixPreset> {
    Find(LoadPresets(stored), id)
  }

  class PresetStore {
    var stored: StoredValue
    var writeFails: bool

    constructor (stored: StoredValue, writeFails: bool)
      ensures this.stored == stored && this.writeFails == writeFails
    {
      this.stored := stored;
      this.writeFails := writeFails;
    }

    /** `savePreset`: append to the loaded custom list (never replacing a matching id) and write it back. */
    method SavePreset(preset: FourSixPreset) returns (outcome: StoreOutcome)
      modifies this
      ensures writeFails == old(writeFails)
      ensures old(writeFails) ==> stored == old(stored) && outcome == Failed("Failed to save preset")
      ensures !old(writeFails) ==> stored == Stored(CustomsAfterSave(old(stored), preset)) && outcome == Done
    {
      var customPresets := NonDefault(LoadPresets(stored));
      customPresets := customPresets + [preset];
      if writeFails {
        return Failed("Failed to save preset");
      }
      stored := Stored(customPresets);
      outcome := Done;
    }

    /** `deletePreset`: drop every custom with that id and write the rest back. */
    method DeletePreset(id: string) returns (outcome: StoreOutcome)
      modifies this
      ensures writeFails == old(writeFails)
      ensures old(writeFails) ==> stored == old(stored) && outcome == Failed("Failed to delete preset")
      ensures !old(writeFails) ==> stored == Stored(CustomsAfterDelete(old(stored), id)) && outcome == Done
    {
      var customPresets := NonDefaultExcept(LoadPresets(stored), id);
      if writeFails {
        return Failed("Failed to delete preset");
      }
      stored := Stored(customPresets);
      outcome := Done;
    }
  }

  // ----- properties of the store -----

  predicate IsBuiltinId(id: string) {
    exists p :: p in DefaultPresets() && p.id == id
  }

  lemma {:induction false} NonDefaultAppend(xs: seq<FourSixPreset>, ys: seq<FourSixPreset>)
    ensures NonDefault(xs + ys) == NonDefault(xs) + NonDefault(ys)
    decreases |xs|
  {
    if xs != [] {
      assert (xs + ys)[1..] == xs[1..] + ys;
      NonDefaultAppend(xs[1..], ys);
    } else {
      assert xs + ys == ys;
    }
  }

  lemma {:induction false} NonDefaultExceptAppend(xs: seq<FourSixPreset>, ys: seq<FourSixPreset>, id: string)
    ensures NonDefaultExcept(xs + ys, id) == NonDefaultExcept(xs, id) + NonDefaultExcept(ys, id)
    decreases |xs|
  {
    if xs != [] {
      assert (xs + ys)[1..] == xs[1..] + ys;
      NonDefaultExceptAppend(xs[1..], ys, id);
    } else {
      assert xs + ys == ys;
    }
  }

  lemma BuiltinsAreDefault(id: string)
    ensures forall p :: p in DefaultPresets() ==> p.isDefault
    ensures NonDefault(DefaultPresets()) == []
    ensures NonDefaultExcept(DefaultPresets(), id) == []
  {
  }

  /** `find` returns the first preset carrying the id. */
  lemma {:induction false} FindFirst(presets: seq<FourSixPreset>, id: string, k: nat)
    requires k < |presets| && presets[k].id == id
    requires forall j :: 0 <= j < k ==> presets[j].id != id
    ensures Find(presets, id) == Some(presets[k])
    decreases k
  {
    if k > 0 {
      FindFirst(presets[1..], id, k - 1);
    }
  }

  /** A preset appended after a list that lacks its id is what `find` returns. */
  lemma {:induction false} FindAppended(presets: seq<FourSixPreset>, preset: FourSixPreset)
    requires forall q :: q in presets ==> q.id != preset.id
    ensures Find(presets + [preset], preset.id) == Some(preset)
    decreases |presets|
  {
    if presets != [] {
      assert presets[0] in presets;
      assert (presets + [preset])[1..] == presets[1..] + [preset];
      FindAppended(presets[1..], preset);
    }
  }

  /** The save filter keeps exactly the presets that are not built-ins. */
  lemma {:induction false} NonDefaultMembers(presets: seq<FourSixPreset>)
    ensures forall p :: p in NonDefault(presets) <==> p in presets && !p.isDefault
    decreases |presets|
  {
    if presets != [] {
      NonDefaultMembers(presets[1..]);
      assert presets == [presets[0]] + presets[1..];
    }
  }

  /** The delete filter keeps exactly the presets that are not built-ins and do not carry the id. */
  lemma {:induction false} NonDefaultExceptMembers(presets: seq<FourSixPreset>, id: string)
    ensures forall p :: p in NonDefaultExcept(presets, id) <==> p in presets && !p.isDefault && p.id != id
    decreases |presets|
  {
    if presets != [] {
      NonDefaultExceptMembers(presets[1..], id);
      assert presets == [presets[0]] + presets[1..];
    }
  }

  /** Filtering keeps a list of customs untouched. */
  lemma {:induction false} NonDefaultKeeps(customs: seq<FourSixPreset>)
    requires forall q :: q in customs ==> !q.isDefault
    ensures NonDefault(customs) == customs
    decreases |customs|
  {
    if customs != [] {
      assert customs[0] in customs;
      NonDefaultKeeps(customs[1..]);
      assert [customs[0]] + customs[1..] == customs;
    }
  }

  /** Filtering keeps a list untouched when nothing in it is a built-in or has the id. */
  lemma {:induction false} NonDefaultExceptKeeps(customs: seq<FourSixPreset>, id: string)
    requires forall q :: q in customs ==> !q.isDefault && q.id != id
    ensures NonDefaultExcept(customs, id) == customs
    decreases |customs|
  {
    if customs != [] {
      assert customs[0] in customs;
      NonDefaultExceptKeeps(customs[1..], id);
      assert [customs[0]] + customs[1..] == customs;
    }
  }

  /** After a successful save, loading yields the built-ins, the earlier customs and the new preset last. */
  lemma {:induction false} SaveThenLoad(stored: StoredValue, preset: FourSixPreset)
    ensures var after := LoadPresets(Stored(CustomsAfterSave(stored, preset)));
      after[|after| - 1] == preset && preset in after
    ensures var after := LoadPresets(Stored(CustomsAfterSave(stored, preset)));
      forall q :: q in LoadPresets(stored) && !q.isDefault ==> q in after
  {
    var after := LoadPresets(Stored(CustomsAfterSave(stored, preset)));
    var customs := CustomsAfterSave(stored, preset);
    assert after == DefaultPresets() + customs;
    NonDefaultMembers(LoadPresets(stored));
    forall q | q in LoadPresets(stored) && !q.isDefault
      ensures q in after
    {
      assert q in NonDefault(LoadPresets(stored));
      assert q in customs;
    }
  }

  /** When the stored list holds only customs (as save and delete leave it), save is a plain append. */
  lemma {:induction false} SaveAppends(stored: StoredValue, preset: FourSixPreset)
    requires stored.Stored? ==> forall q :: q in stored.customs ==> !q.isDefault
    ensures LoadPresets(Stored(CustomsAfterSave(stored, preset))) == LoadPresets(stored) + [preset]
  {
    var defaults := DefaultPresets();
    var customs := if stored.Stored? then stored.customs else [];
    assert LoadPresets(stored) == defaults + customs;
    assert NonDefault(defaults + customs) == customs by {
      BuiltinsAreDefault(preset.id);
      NonDefaultAppend(defaults, customs);
      NonDefaultKeeps(customs);
    }
    assert LoadPresets(Stored(customs + [preset])) == defaults + (customs + [preset]);
    assert defaults + (customs + [preset]) == (defaults + customs) + [preset];
  }

  /** `find` on a list that already holds a match ignores whatever is appended after it. */
  lemma {:induction false} FindExtended(xs: seq<FourSixPreset>, ys: seq<FourSixPreset>, id: string)
    requires Find(xs, id).Some?
    ensures Find(xs + ys, id) == Find(xs, id)
    decreases |xs|
  {
    assert xs != [];
    if xs[0].id != id {
      assert (xs + ys)[1..] == xs[1..] + ys;
      FindExtended(xs[1..], ys, id);
    }
  }

  /**
   * Save does not update a preset in place: when a preset with that id is already loaded, a
   * lookup by the id after the save still returns the earlier one.
   */
  lemma {:induction false} SaveDoesNotUpdate(stored: StoredValue, preset: FourSixPreset)
    requires stored.Stored? ==> forall q :: q in stored.customs ==> !q.isDefault
    requires GetPresetById(stored, preset.id).Some?
    ensures GetPresetById(Stored(CustomsAfterSave(stored, preset)), preset.id) == GetPresetById(stored, preset.id)
  {
    SaveAppends(stored, preset);
    FindExtended(LoadPresets(stored), [preset], preset.id);
  }

  /** Save never replaces: a custom sharing the saved preset's id stays, so the id now occurs twice. */
  lemma {:induction false} SaveKeepsDuplicateIds(stored: StoredValue, preset: FourSixPreset, earlier: FourSixPreset)
    requires earlier in LoadPresets(stored) && !earlier.isDefault && earlier.id == preset.id && earlier != preset
    ensures earlier in CustomsAfterSave(stored, preset) && preset in CustomsAfterSave(stored, preset)
  {
    NonDefaultMembers(LoadPresets(stored));
    assert earlier in NonDefault(LoadPresets(stored));
  }

  /** A saved preset is found by id when no built-in and no earlier custom shares it. */
  lemma {:induction false} SaveThenGet(stored: StoredValue, preset: FourSixPreset)
    requires forall q :: q in LoadPresets(stored) ==> q.id != preset.id
    ensures GetPresetById(Stored(CustomsAfterSave(stored, preset)), preset.id) == Some(preset)
  {
    var loaded := LoadPresets(stored);
    var earlier := DefaultPresets() + NonDefault(loaded);
    assert LoadPresets(Stored(CustomsAfterSave(stored, preset))) == earlier + [preset];
    NonDefaultMembers(loaded);
    forall q | q in earlier
      ensures q.id != preset.id
    {
      if q !in NonDefault(loaded) {
        assert q in loaded[..|DefaultPresets()|];
      }
    }
    FindAppended(earlier, preset);
  }

  /** After a successful delete no custom carries the id, and every other custom stays. */
  lemma {:induction false} DeleteThenLoad(stored: StoredValue, id: string)
    ensures var after := LoadPresets(Stored(CustomsAfterDelete(stored, id)));
      forall q :: q in after[|DefaultPresets()|..] ==> q.id != id && !q.isDefault
    ensures var after := LoadPresets(Stored(CustomsAfterDelete(stored, id)));
      forall q :: q in LoadPresets(stored) && !q.isDefault && q.id != id ==> q in after
    ensures !IsBuiltinId(id) ==> GetPresetById(Stored(CustomsAfterDelete(stored, id)), id) == None
  {
    var customs := CustomsAfterDelete(stored, id);
    var after := LoadPresets(Stored(customs));
    NonDefaultExceptMembers(LoadPresets(stored), id);
    assert after == DefaultPresets() + customs;
    assert after[|DefaultPresets()|..] == customs;
    if !IsBuiltinId(id) {
      forall q | q in after
        ensures q.id != id
      {
        if q in DefaultPresets() {
          assert !(q in DefaultPresets() && q.id == id);
        }
      }
    }
  }

  /** Deleting a built-in id changes nothing a load can see, when no custom shares that id. */
  lemma {:induction false} DeleteBuiltinIdKeepsLoad(stored: StoredValue, id: string)
    requires IsBuiltinId(id)
    requires stored.Stored? ==> forall q :: q in stored.customs ==> !q.isDefault && q.id != id
    ensures LoadPresets(Stored(CustomsAfterDelete(stored, id))) == LoadPresets(stored)
  {
    var defaults := DefaultPresets();
    var customs := if stored.Stored? then stored.customs else [];
    assert LoadPresets(stored) == defaults + customs;
    BuiltinsAreDefault(id);
    NonDefaultExceptAppend(defaults, customs, id);
    NonDefaultExceptKeeps(customs, id);
    assert CustomsAfterDelete(stored, id) == customs;
  }

  /** Neither save nor delete ever writes a built-in back into the custom list. */
  lemma {:induction false} BuiltinsNeverWritten(stored: StoredValue, preset: FourSixPreset, id: string)
    ensures forall q :: q in CustomsAfterDelete(stored, id) ==> !q.isDefault
    ensures var saved := CustomsAfterSave(stored, preset);
      forall k :: 0 <= k < |saved| - 1 ==> !saved[k].isDefault
    ensures !preset.isDefault ==> forall d :: d in DefaultPresets() ==> d !in CustomsAfterSave(stored, preset)
  {
    NonDefaultMembers(LoadPresets(stored));
    NonDefaultExceptMembers(LoadPresets(stored), id);
    BuiltinsAreDefault(id);
    var saved := CustomsAfterSave(stored, preset);
    forall k | 0 <= k < |saved| - 1
      ensures !saved[k].isDefault
    {
      assert saved[k] in NonDefault(LoadPresets(stored));
    }
  }

  /** Built-ins come first, so a custom can never shadow a built-in of the same id. */
  lemma {:induction false} BuiltinsShadowCustoms(stored: StoredValue, k: nat)
    requires k < |DefaultPresets()|
    ensures GetPresetById(stored, DefaultPresets()[k].id) == Some(DefaultPresets()[k])
  {
    var all := LoadPresets(stored);
    assert all[k] == DefaultPresets()[k];
    forall j | 0 <= j < k
      ensures all[j].id != all[k].id
    {
      assert all[j] == DefaultPresets()[j];
    }
    FindFirst(all, all[k].id, k);
  }

  /** Running total up to i, unrolled from the front for concrete lists. */
  function PrefixOf(pours: seq<FourSixPour>, i: nat): real
    requires i <= |pours|
  {
    if i == 0 then 0.0 else PrefixOf(pours, i - 1) + pours[i - 1].amount
  }

  lemma {:induction false} PrefixOfSum(pours: seq<FourSixPour>, i: nat)
    requires i <= |pours|
    ensures AmountSum(pours[..i]) == PrefixOf(pours, i)
  {
    if i > 0 {
      PrefixOfSum(pours, i - 1);
      assert pours[..i][..i - 1] == pours[..i - 1];
    }
  }

  /** Pour list 50/70/90/90 at 0/45/90/135 (the original preset, also the editor's starting list). */
  lemma {:induction false} OriginalPoursValid()
    ensures var pours := OriginalPours();
      Validation(pours).isValid && Validation(pours).phase1Total == 120.0 && AmountSum(pours) == 300.0
  {
    var pours := OriginalPours();
    PrefixOfSum(pours, 1);
    PrefixOfSum(pours, 2);
    PrefixOfSum(pours, 4);
    assert pours[..4] == pours;
    assert !Reaches(pours, 0);
    ValidWhenRulesHoldAt(pours, 1);
  }

  /** Pour list 60 x 5 at 0/45/90/120/150. */
  lemma {:induction false} GentlePoursValid()
    ensures var pours := GentlePours();
      Validation(pours).isValid && Validation(pours).phase1Total == 120.0 && AmountSum(pours) == 300.0
  {
    var pours := GentlePours();
    PrefixOfSum(pours, 1);
    PrefixOfSum(pours, 2);
    PrefixOfSum(pours, 5);
    assert pours[..5] == pours;
    assert !Reaches(pours, 0);
    ValidWhenRulesHoldAt(pours, 1);
  }

  /** Pour list 120/90/90 at 0/60/120. */
  lemma {:induction false} BoldPoursValid()
    ensures var pours := BoldPours();
      Validation(pours).isValid && Validation(pours).phase1Total == 120.0 && AmountSum(pours) == 300.0
  {
    var pours := BoldPours();
    PrefixOfSum(pours, 1);
    PrefixOfSum(pours, 3);
    assert pours[..3] == pours;
    ValidWhenRulesHoldAt(pours, 0);
  }

  /** Each built-in preset passes the validator: 300 g in all, 120 g in phase 1, times increasing. */
  lemma {:induction false} DefaultPresetsAreValid(k: nat)
    requires k < |DefaultPresets()|
    ensures Validation(DefaultPresets()[k].pours).isValid
    ensures Validation(DefaultPresets()[k].pours).phase1Total == 120.0
    ensures AmountSum(DefaultPresets()[k].pours) == 300.0
  {
    if k == 0 { OriginalPoursValid(); }
    else if k == 1 { GentlePoursValid(); }
    else { BoldPoursValid(); }
  }
}
