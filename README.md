# Coffee brewing calculator: the 4:6 core, modelled in Dafny

The application plans pour-over brews. Given a dose and a ratio, it computes the total water and
turns it into a timed list of pours for one of three brew methods:
- Tetsu Kasuya's 4:6 method, driven by a pour preset;
- James Hoffmann's five-pour V60 recipe;
- a single continuous pour.

The 4:6 method divides its water into phase 1 (40 % of it, for sweetness) and phase 2 (60 %, for
strength). Presets are written against 300 g and scaled to the requested water.

Users can build their own presets in an editor. A validator checks a preset: 300 g in all, 120 g
in phase 1, 180 g in phase 2, all within 0.1 g, every pour positive, and times strictly
increasing. Custom presets are kept in a key-value store after the three built-ins.

The model has eight modules, one per source unit plus two shared ones:

| module | file | models |
|---|---|---|
| `CoffeeTypes` | `types.dfy` | the records of `src/types/coffee.ts`, plus `Option` |
| `Decimal` | `decimal.dfy` | whole numbers printed as decimal strings, and read back |
| `Pours` | `pours.dfy` | the constants, running totals, and the phase-1 boundary with the scan loop that finds it |
| `FourSixValidator` | `validator.dfy` | `validateFourSixPreset` |
| `PresetStorage` | `storage.dfy` | the built-in presets, load, save, delete and lookup by id |
| `CoffeeCalculations` | `calculations.dfy` | total water, the three step generators, the method table and the app's regeneration guard |
| `FourSixPresetEditor` | `editor.dfy` | the editor's state and handlers |
| `BrewingSteps` | `brewing.dfy` | `formatTime` and the total the steps panel shows |

How the code is modelled:
- Amounts are `real`s and times are `int`s.
- Each loop of the source (`for`, `forEach`, `map`) is a `while` loop in the model, proved to compute a
  reference function:
  - `ValidateFourSixPreset` computes `Validation`;
  - `ScanPhase1Index` computes `Phase1Index`;
  - `ScalePours` computes `StepsUpTo`.
- State the source mutates is a class:
  - the store is `PresetStore`: the stored value plus a flag saying whether writes fail;
  - the editor is `PresetEditor`: its name and pour list.
- The lemmas state what the results mean.

The phase-1 boundary has one definition, `Pours.FirstReach`: the first pour whose running total
reaches 120 g less the 0.1 g tolerance. The source uses it in two forms:
- the validator falls back to pour 0 when no pour reaches the threshold (`Phase1End`);
- the step generator and the editor use -1 in that case (`Phase1Index`).

Three behaviours of the code are easy to misread:
- **Saving a preset only appends.** Saving never replaces a custom preset with the same id. The id
  then occurs twice, and lookups by id keep returning the earlier copy: see `SaveKeepsDuplicateIds`
  and `SaveDoesNotUpdate`.
- **An unreachable boundary labels every step phase 2.** When no running total reaches the
  threshold, the -1 marker is below every index, so the 4:6 generator labels every step as
  phase 2 (`PresetPhaseLabels`).
- **The schedule reaches the requested water only for a 300 g preset.** A custom preset that does
  not hold exactly 300 g gives a schedule that ends short of or past the requested water.
  `ScheduleEndsAtTotal` states when the schedule does end exactly there.

## Model

| member | source | states |
|---|---|---|
| `Pours.FirstReachFrom` | src/utils/fourSixValidator.ts:42-48 | the first index from `from` on whose running total reaches 119.9 g; no earlier index reaches; None exactly when none reaches |
| `Pours.AmountSum` | src/utils/fourSixValidator.ts:31 | definition of the left-to-right `reduce` of the amounts (also at fourSixValidator.ts:50-51 and FourSixPresetEditor.tsx:74); its meaning is stated by AmountSumAppend, AmountSumSplit and AmountSumConcat |
| `Pours.Cumulative` | src/utils/fourSixValidator.ts:43 | definition of the running total through pour i; its meaning is stated by AmountSumStep and AmountSumMonotone |
| `Pours.Reaches` | src/utils/fourSixValidator.ts:44 | definition of the loop test `cumulative >= phase1Target - 0.1`; its meaning is stated by FirstReachFrom, FirstReachIs and FirstReachAbsent |
| `Pours.FirstReach` | src/utils/fourSixValidator.ts:37-48 | the phase-1 boundary is a reaching pour with no reaching pour before it; None exactly when no pour reaches |
| `Pours.Phase1Index` | src/utils/coffeeCalculations.ts:61-72 | the boundary with the -1 sentinel: -1 exactly when no pour reaches the threshold |
| `Pours.ScanPhase1Index` | src/utils/coffeeCalculations.ts:62-72 | the accumulate-and-break loop returns exactly the first reaching index, or -1 |
| `Pours.FirstReachIs` | src/utils/fourSixValidator.ts:42-48 | a reaching pour with none reaching before it is the boundary |
| `Pours.FirstReachAbsent` | src/utils/fourSixValidator.ts:42-48 | with no reaching pour there is no boundary |
| `Pours.AmountSumAppend` | src/utils/fourSixValidator.ts:31 | appending a pour adds its amount to the total |
| `Pours.AmountSumStep` | src/utils/coffeeCalculations.ts:75-76 | the running total through a pour is the previous running total plus that pour's amount |
| `Pours.AmountSumSplit` | src/utils/fourSixValidator.ts:50-51 | the amounts before and after any cut add up to the whole |
| `Pours.AmountSumConcat` | src/utils/fourSixValidator.ts:31 | the total of two joined lists is the sum of their totals |
| `Pours.AmountSumSameAmounts` | src/utils/fourSixValidator.ts:31 | the total depends on the amounts only, not on the times |
| `Pours.SameAmountsSameBoundary` | src/utils/coffeeCalculations.ts:66-72 | lists with the same amounts have the same phase-1 boundary |
| `Pours.AmountSumMonotone` | src/utils/coffeeCalculations.ts:74-77 | with non-negative amounts, running totals never decrease |
| `Decimal.NatToString` | src/components/BrewingSteps.tsx:16 | a whole number prints as one or more digits with no leading zero (except 0 itself); one digit exactly below 10, at most two below 100 |
| `Decimal.IntToString` | src/components/BrewingSteps.tsx:16 | a non-negative number prints as its digits; a negative one prints as a minus sign followed by digits that read back as its magnitude |
| `Decimal.ParseNatToString` | src/components/BrewingSteps.tsx:16 | reading the printed digits back gives the number |
| `FourSixValidator.FindPhase1End` | src/utils/fourSixValidator.ts:37-48 | the boundary loop returns the first reaching pour, or 0 when none reaches |
| `FourSixValidator.PushAmountErrors` | src/utils/fourSixValidator.ts:67-72 | the amount loop appends exactly the per-pour amount errors, in pour order |
| `FourSixValidator.PushTimingErrors` | src/utils/fourSixValidator.ts:74-79 | the timing loop appends exactly the adjacent-pair timing errors, in order |
| `FourSixValidator.ValidateFourSixPreset` | src/utils/fourSixValidator.ts:16-89 | the validator computes the reference `Validation`; it is valid exactly when there are no errors; an empty list gives only the "at least one pour" error and zero totals |
| `FourSixValidator.AmountErrorsExact` | src/utils/fourSixValidator.ts:67-72 | one error per non-positive pour and no other, numbered from 1 and in increasing order |
| `FourSixValidator.TimingErrorsExact` | src/utils/fourSixValidator.ts:74-79 | one error per adjacent pair whose later time does not exceed the earlier, numbered i + 1 after i, in increasing order |
| `FourSixValidator.ErrorCountBound` | src/utils/fourSixValidator.ts:31-79 | a non-empty list earns at most 3 + n + (n - 1) errors |
| `FourSixValidator.PhaseTotalsPartition` | src/utils/fourSixValidator.ts:50-51 | the phase-1 and phase-2 totals add up to the total water |
| `FourSixValidator.UnreachedBoundaryIsFirstPour` | src/utils/fourSixValidator.ts:38-51 | when no pour reaches the threshold, phase 1 is the first pour alone |
| `FourSixValidator.ReachedBoundaryEndsPhase1` | src/utils/fourSixValidator.ts:42-51 | otherwise phase 1 is everything up to and including the first reaching pour, and it is at least 119.9 g |
| `FourSixValidator.AmountErrorsEmpty` | src/utils/fourSixValidator.ts:67-72 | no amount errors exactly when every amount is positive |
| `FourSixValidator.TimingErrorsEmpty` | src/utils/fourSixValidator.ts:74-79 | no timing errors exactly when every time is after the previous one |
| `FourSixValidator.ValidIffRulesHold` | src/utils/fourSixValidator.ts:31-88 | valid exactly when the list is non-empty, the three totals are within 0.1 g of 300, 120 and 180, every amount is positive and every time increases |
| `FourSixValidator.Validation` | src/utils/fourSixValidator.ts:16-89 | definition of the validator's result; its meaning is stated by ValidIffRulesHold, ValidMeansWithinTolerance, ErrorsInFixedOrder and ErrorCountBound |
| `FourSixValidator.OffTarget` | src/utils/fourSixValidator.ts:33 | definition of `Math.abs(value - target) > 0.1` (also at fourSixValidator.ts:57 and 63); its meaning is stated by ValidIffRulesHold and ValidMeansWithinTolerance |
| `FourSixValidator.Phase1End` | src/utils/fourSixValidator.ts:38-48 | definition: the first reaching pour, or pour 0; its meaning is stated by UnreachedBoundaryIsFirstPour and ReachedBoundaryEndsPhase1 |
| `FourSixValidator.Phase1Total` | src/utils/fourSixValidator.ts:50 | definition; its meaning is stated by PhaseTotalsPartition, UnreachedBoundaryIsFirstPour and ReachedBoundaryEndsPhase1 |
| `FourSixValidator.Phase2Total` | src/utils/fourSixValidator.ts:51 | definition; its meaning is stated by PhaseTotalsPartition, UnreachedBoundaryIsFirstPour and ReachedBoundaryEndsPhase1 |
| `FourSixValidator.Percentage` | src/utils/fourSixValidator.ts:53-54 | definition: a subtotal as a percentage of 300 g |
| `FourSixValidator.TotalErrors` | src/utils/fourSixValidator.ts:33-65 | definition of the total and phase checks; its meaning is stated by ValidIffRulesHold and ErrorsInFixedOrder |
| `FourSixValidator.AmountErrors` | src/utils/fourSixValidator.ts:67-72 | definition; its meaning is stated by AmountErrorsExact and AmountErrorsEmpty |
| `FourSixValidator.TimingErrors` | src/utils/fourSixValidator.ts:74-79 | definition; its meaning is stated by TimingErrorsExact and TimingErrorsEmpty |
| `FourSixValidator.IncreasingTimesAreSorted` | src/utils/fourSixValidator.ts:74-79 | adjacent increases make any later pour start after any earlier one |
| `FourSixValidator.ValidMeansWithinTolerance` | src/utils/fourSixValidator.ts:31-88 | a valid list is within 0.1 g of 300 / 120 / 180, all positive, and its times are strictly sorted |
| `FourSixValidator.ErrorsInFixedOrder` | src/utils/fourSixValidator.ts:31-79 | errors come as total, phase 1, phase 2, the amount errors, then the timing errors |
| `FourSixValidator.ValidWhenRulesHoldAt` | src/utils/fourSixValidator.ts:31-88 | the rules checked at a known boundary suffice for validity, with phase 1 the running total at that boundary |
| `PresetStorage.LoadPresets` | src/utils/presetStorage.ts:41-53 | the built-ins always come first; the stored customs follow; with nothing readable stored, only the built-ins |
| `PresetStorage.DefaultPresets` | src/utils/presetStorage.ts:5-39 | definition of the three built-ins; their meaning is stated by DefaultPresetsAreValid and BuiltinsAreDefault |
| `PresetStorage.OriginalPours` | src/utils/presetStorage.ts:10-15 | definition; its meaning is stated by OriginalPoursValid |
| `PresetStorage.GentlePours` | src/utils/presetStorage.ts:21-27 | definition; its meaning is stated by GentlePoursValid |
| `PresetStorage.BoldPours` | src/utils/presetStorage.ts:33-37 | definition; its meaning is stated by BoldPoursValid |
| `PresetStorage.Find` | src/utils/presetStorage.ts:76-78 | a result is in the list and carries the id; None exactly when no preset carries it |
| `PresetStorage.GetPresetById` | src/utils/presetStorage.ts:76-78 | definition; its meaning is stated by BuiltinsShadowCustoms, SaveThenGet, SaveDoesNotUpdate and DeleteThenLoad |
| `PresetStorage.NonDefault` | src/utils/presetStorage.ts:57 | definition of the save filter; its meaning is stated by NonDefaultMembers, NonDefaultKeeps and NonDefaultAppend |
| `PresetStorage.NonDefaultExcept` | src/utils/presetStorage.ts:68 | definition of the delete filter; its meaning is stated by NonDefaultExceptMembers, NonDefaultExceptKeeps and NonDefaultExceptAppend |
| `PresetStorage.CustomsAfterSave` | src/utils/presetStorage.ts:57-58 | definition of the list a save writes; its meaning is stated by SaveThenLoad, SaveAppends and SaveKeepsDuplicateIds |
| `PresetStorage.CustomsAfterDelete` | src/utils/presetStorage.ts:68 | definition of the list a delete writes; its meaning is stated by DeleteThenLoad and DeleteBuiltinIdKeepsLoad |
| `PresetStorage.PresetStore.SavePreset` | src/utils/presetStorage.ts:55-64 | a failing write leaves the store and raises "Failed to save preset"; otherwise the non-built-ins with the preset appended are written |
| `PresetStorage.PresetStore.DeletePreset` | src/utils/presetStorage.ts:66-74 | a failing write leaves the store and raises "Failed to delete preset"; otherwise the non-built-ins without the id are written |
| `PresetStorage.BuiltinsAreDefault` | src/utils/presetStorage.ts:5-39 | every built-in is marked default, so both filters drop all of them |
| `PresetStorage.FindFirst` | src/utils/presetStorage.ts:76-78 | lookup returns the first preset carrying the id |
| `PresetStorage.FindAppended` | src/utils/presetStorage.ts:76-78 | a preset appended after a list lacking its id is what lookup returns |
| `PresetStorage.FindExtended` | src/utils/presetStorage.ts:76-78 | once a list holds a match, anything appended after it does not change the lookup |
| `PresetStorage.NonDefaultAppend` | src/utils/presetStorage.ts:57 | the save filter distributes over concatenation |
| `PresetStorage.NonDefaultExceptAppend` | src/utils/presetStorage.ts:68 | the delete filter distributes over concatenation |
| `PresetStorage.NonDefaultMembers` | src/utils/presetStorage.ts:57 | the save filter keeps exactly the presets not marked default |
| `PresetStorage.NonDefaultExceptMembers` | src/utils/presetStorage.ts:68 | the delete filter keeps exactly the presets neither default nor carrying the id |
| `PresetStorage.NonDefaultKeeps` | src/utils/presetStorage.ts:57 | the save filter leaves a list of customs unchanged |
| `PresetStorage.NonDefaultExceptKeeps` | src/utils/presetStorage.ts:68 | the delete filter leaves a list unchanged when nothing in it is default or carries the id |
| `PresetStorage.SaveThenLoad` | src/utils/presetStorage.ts:55-64 | after a save, the preset is loaded last and every earlier custom is still loaded |
| `PresetStorage.SaveAppends` | src/utils/presetStorage.ts:55-64 | when only customs are stored, loading after a save gives the earlier load with the preset appended |
| `PresetStorage.SaveKeepsDuplicateIds` | src/utils/presetStorage.ts:55-64 | a save never replaces: an earlier custom with the same id stays beside the new preset |
| `PresetStorage.SaveDoesNotUpdate` | src/utils/presetStorage.ts:55-64 | when a preset with that id is already loaded, lookup by id after the save still returns the earlier preset |
| `PresetStorage.SaveThenGet` | src/utils/presetStorage.ts:76-78 | a saved preset whose id is new is found by that id |
| `PresetStorage.DeleteThenLoad` | src/utils/presetStorage.ts:66-74 | after a delete, no stored custom carries the id, every other custom stays, and a non-built-in id is no longer found |
| `PresetStorage.DeleteBuiltinIdKeepsLoad` | src/utils/presetStorage.ts:66-74 | deleting a built-in's id changes nothing a load can see, when no custom shares the id |
| `PresetStorage.BuiltinsNeverWritten` | src/utils/presetStorage.ts:55-74 | neither save nor delete writes a built-in into the custom list |
| `PresetStorage.BuiltinsShadowCustoms` | src/utils/presetStorage.ts:76-78 | a lookup by a built-in's id always finds the built-in, whatever customs are stored |
| `PresetStorage.OriginalPoursValid` | src/utils/presetStorage.ts:6-16 | 50/70/90/90 g passes the validator with 120 g in phase 1 and 300 g in all |
| `PresetStorage.GentlePoursValid` | src/utils/presetStorage.ts:17-28 | five 60 g pours pass the validator with 120 g in phase 1 and 300 g in all |
| `PresetStorage.BoldPoursValid` | src/utils/presetStorage.ts:29-38 | 120/90/90 g passes the validator with 120 g in phase 1 and 300 g in all |
| `PresetStorage.DefaultPresetsAreValid` | src/utils/presetStorage.ts:5-39 | every built-in preset is valid, holds 300 g and has 120 g in phase 1 |
| `CoffeeCalculations.CalculateTotalWater` | src/utils/coffeeCalculations.ts:4-9 | the water divided by the ratio gives back the dose, and divided by the dose gives back the ratio; a positive dose and ratio give positive water |
| `CoffeeCalculations.PresetSteps` | src/utils/coffeeCalculations.ts:57-88 | definition of the preset path: one step per pour; its meaning is stated by PresetStepsShape, PresetStepsRunningTotals, PresetPhaseLabels and PresetLastCumulative |
| `CoffeeCalculations.StepsUpTo` | src/utils/coffeeCalculations.ts:74-88 | definition of the first n mapped steps; its meaning is stated by StepsUpToAt |
| `CoffeeCalculations.PresetStep` | src/utils/coffeeCalculations.ts:75-87 | definition of one mapped step; its meaning is stated by PresetStepsShape and PresetCumulativeStep |
| `CoffeeCalculations.PourDescription` | src/utils/coffeeCalculations.ts:79-86 | definition of a preset step's text; its meaning is stated by PourDescriptionTellsPhase |
| `CoffeeCalculations.FallbackSteps` | src/utils/coffeeCalculations.ts:18-55 | definition; its meaning is stated by FallbackStepsFacts and FallbackApproximatesOriginal |
| `CoffeeCalculations.ResolvePreset` | src/utils/coffeeCalculations.ts:16 | definition; its meaning is stated by FallbackOnlyForUnknownId and BuiltinPresetSchedule |
| `CoffeeCalculations.Steps46` | src/utils/coffeeCalculations.ts:14-89 | definition of the 4:6 schedule; its meaning is stated by Steps46EndsAtTotal, FallbackOnlyForUnknownId and BuiltinPresetSchedule |
| `CoffeeCalculations.HoffmanSteps` | src/utils/coffeeCalculations.ts:94-138 | definition; its meaning is stated by HoffmanStepsFacts |
| `CoffeeCalculations.SinglePourSteps` | src/utils/coffeeCalculations.ts:141-151 | definition; its meaning is stated by SinglePourStepsFacts |
| `CoffeeCalculations.BrewMethods` | src/utils/coffeeCalculations.ts:153-179 | definition of the method table; its meaning is stated by GetBrewMethod |
| `CoffeeCalculations.Schedule` | src/utils/coffeeCalculations.ts:161-177 | definition of the dispatch to each generator; its meaning is stated by ScheduleEndsAtTotal |
| `CoffeeCalculations.StepsUpToAt` | src/utils/coffeeCalculations.ts:74-88 | step i of the mapped list is built from pour i |
| `CoffeeCalculations.PresetStepAt` | src/utils/coffeeCalculations.ts:74-88 | step i of a preset schedule is built from pour i, the scale and the boundary |
| `CoffeeCalculations.Generate46Steps` | src/utils/coffeeCalculations.ts:14-89 | the generator returns the fallback pattern for an unknown id, and otherwise the scaled preset steps |
| `CoffeeCalculations.ScalePours` | src/utils/coffeeCalculations.ts:74-88 | the `map` with its running water yields exactly the reference steps |
| `CoffeeCalculations.ScaleStep` | src/utils/coffeeCalculations.ts:75-76 | adding a scaled amount to the running water gives the scaled running total through that pour |
| `CoffeeCalculations.PourDescriptionTellsPhase` | src/utils/coffeeCalculations.ts:78-86 | a step's phase-1 and phase-2 descriptions differ |
| `CoffeeCalculations.PresetStepsShape` | src/utils/coffeeCalculations.ts:74-88 | steps are numbered 1..n, each amount is the pour's amount times totalWater / 300, and times are copied unscaled |
| `CoffeeCalculations.PresetCumulativeStep` | src/utils/coffeeCalculations.ts:75-76 | each cumulative is the previous cumulative plus this step's amount |
| `CoffeeCalculations.PresetStepsRunningTotals` | src/utils/coffeeCalculations.ts:74-88 | every step's cumulative water is the sum of the amounts poured so far |
| `CoffeeCalculations.PresetCumulativeNondecreasing` | src/utils/coffeeCalculations.ts:74-88 | with non-negative amounts and water, cumulative water never decreases |
| `CoffeeCalculations.PresetLastCumulative` | src/utils/coffeeCalculations.ts:57-88 | the last cumulative is the preset total scaled, so it is the requested water when the preset holds 300 g |
| `CoffeeCalculations.PresetPhaseLabels` | src/utils/coffeeCalculations.ts:61-79 | a step is labelled phase 1 exactly when it is at or before the first reaching pour; with no reaching pour, every step is phase 2 |
| `CoffeeCalculations.FallbackOnlyForUnknownId` | src/utils/coffeeCalculations.ts:16-18 | the fallback is taken exactly for a non-empty id that no loaded preset carries; no id or an empty one gives the original built-in's scaled steps, for any water |
| `CoffeeCalculations.BuiltinPresetSchedule` | src/utils/coffeeCalculations.ts:16 | a built-in's id always yields that preset's scaled steps, whatever customs are stored |
| `CoffeeCalculations.BuiltinPresetEndsAtTotal` | src/utils/coffeeCalculations.ts:57-88 | a built-in's schedule ends at exactly the requested water |
| `CoffeeCalculations.FallbackStepsFacts` | src/utils/coffeeCalculations.ts:18-55 | 4 numbered steps at 0/45/90/135 s, with running totals, ending at the requested water |
| `CoffeeCalculations.FallbackApproximatesOriginal` | src/utils/coffeeCalculations.ts:20-23 | each fallback share is within 0.0001 x totalWater of the original preset's scaled pour |
| `CoffeeCalculations.PresetStepAmount` | src/utils/coffeeCalculations.ts:75 | a step pours its pour's amount times totalWater / 300 |
| `CoffeeCalculations.HoffmanStepsFacts` | src/utils/coffeeCalculations.ts:94-138 | 5 numbered steps of a fifth each at 0/45/70/90/110 s, with running totals, ending at the requested water |
| `CoffeeCalculations.SinglePourStepsFacts` | src/utils/coffeeCalculations.ts:141-151 | one step of all the water at 0 s |
| `CoffeeCalculations.FindMethod` | src/utils/coffeeCalculations.ts:182 | a found method is in the table and carries the id; None exactly when none does |
| `CoffeeCalculations.GetBrewMethod` | src/utils/coffeeCalculations.ts:153-183 | exactly "4-6", "hoffman" and "single-pour" are found, each as the table's own entry under that id (so with its own generator) |
| `CoffeeCalculations.GenerateSteps` | src/utils/coffeeCalculations.ts:153-179 | a method runs its own generator; only the 4:6 one reads the preset id |
| `CoffeeCalculations.UpdateBrewSteps` | src/App.tsx:39-47 | an unknown method or non-positive water gives no steps; otherwise the method's schedule |
| `CoffeeCalculations.ScheduleEndsAtTotal` | src/utils/coffeeCalculations.ts:14-151 | every schedule is non-empty and ends at the requested water, unless a custom 4:6 preset does not hold 300 g |
| `CoffeeCalculations.Steps46EndsAtTotal` | src/utils/coffeeCalculations.ts:14-89 | the 4:6 schedule ends at the requested water for the fallback and for any preset holding 300 g |
| `FourSixPresetEditor.TrimStart` | src/components/FourSixPresetEditor.tsx:61 | drops exactly the leading white space |
| `FourSixPresetEditor.Trim` | src/components/FourSixPresetEditor.tsx:61 | definition: leading, then trailing white space removed; its meaning is stated by TrimEmptyIff and TrimIdempotent |
| `FourSixPresetEditor.TrimEnd` | src/components/FourSixPresetEditor.tsx:61 | drops exactly the trailing white space |
| `FourSixPresetEditor.TrimEmptyIff` | src/components/FourSixPresetEditor.tsx:61 | a name trims to nothing exactly when it is all white space |
| `FourSixPresetEditor.TrimIdempotent` | src/components/FourSixPresetEditor.tsx:65 | a trimmed name has no white space at either end, and trimming it again changes nothing |
| `FourSixPresetEditor.WithoutIndex` | src/components/FourSixPresetEditor.tsx:49 | filtering out an index removes exactly that pour; an index outside the list removes nothing |
| `FourSixPresetEditor.InitialPours` | src/components/FourSixPresetEditor.tsx:15-20 | definition; its meaning is stated by InitialPoursValid |
| `FourSixPresetEditor.WithAddedPour` | src/components/FourSixPresetEditor.tsx:40-44 | definition; its meaning is stated by AddPourKeepsOrder and AddPourBreaksValidity |
| `FourSixPresetEditor.AmountValue` | src/components/FourSixPresetEditor.tsx:55-56 | definition: 0 for an empty box or NaN, else the parsed float |
| `FourSixPresetEditor.TimeValue` | src/components/FourSixPresetEditor.tsx:55-56 | definition: 0 for an empty box or NaN, else the parsed integer |
| `FourSixPresetEditor.WithChangedPour` | src/components/FourSixPresetEditor.tsx:54-57 | definition; its meaning is stated by ChangeAmountTotal and ChangeTimeKeepsPhases |
| `FourSixPresetEditor.SavedPreset` | src/components/FourSixPresetEditor.tsx:63-68 | definition of the preset a save writes; its meaning is stated by SavedPresetLoads and NewPresetFoundById |
| `FourSixPresetEditor.NewPresetId` | src/components/FourSixPresetEditor.tsx:64 | a non-empty id of the edited preset is kept; otherwise "custom-" followed by the clock's digits |
| `FourSixPresetEditor.PresetEditor.constructor` | src/components/FourSixPresetEditor.tsx:12-21 | opens on a preset's name and pours, or on an empty name and 50/70/90/90 g at 0/45/90/135 s |
| `FourSixPresetEditor.PresetEditor.TotalWater` | src/components/FourSixPresetEditor.tsx:74 | the shown total is the validator's phase-1 plus phase-2 total, and 0 for no pours |
| `FourSixPresetEditor.PresetEditor.Phase1EndIndex` | src/components/FourSixPresetEditor.tsx:25-37 | the marker loop returns the first reaching pour, or -1 |
| `FourSixPresetEditor.PresetEditor.Rename` | src/components/FourSixPresetEditor.tsx:102 | the name box sets the name and leaves the pours |
| `FourSixPresetEditor.PresetEditor.AddPour` | src/components/FourSixPresetEditor.tsx:39-45 | appends 50 g starting 30 s after the last pour, or at 0 s with no pours |
| `FourSixPresetEditor.PresetEditor.RemovePour` | src/components/FourSixPresetEditor.tsx:47-51 | removes the pour at the index unless it is the only one; the list never becomes empty this way |
| `FourSixPresetEditor.PresetEditor.ChangePour` | src/components/FourSixPresetEditor.tsx:53-58 | sets one field of one pour from the input, 0 for an empty or unreadable box |
| `FourSixPresetEditor.PresetEditor.Save` | src/components/FourSixPresetEditor.tsx:60-72 | nothing happens unless the pours validate and the name is not blank; otherwise the trimmed, non-default preset is saved, and the outcome is Done or the raised "Failed to save preset" exactly as the write succeeds or fails |
| `FourSixPresetEditor.InitialPoursValid` | src/components/FourSixPresetEditor.tsx:14-21 | the starting pours are the original preset's and pass the validator |
| `FourSixPresetEditor.AddPourKeepsOrder` | src/components/FourSixPresetEditor.tsx:39-45 | adding keeps times strictly increasing and amounts positive, and adds 50 g to the total |
| `FourSixPresetEditor.AddPourBreaksValidity` | src/components/FourSixPresetEditor.tsx:39-45 | adding a pour to a valid list makes it invalid with a total mismatch |
| `FourSixPresetEditor.RemovePourKeepsOrder` | src/components/FourSixPresetEditor.tsx:47-51 | removing a pour keeps the remaining times strictly increasing |
| `FourSixPresetEditor.RemovePourTotal` | src/components/FourSixPresetEditor.tsx:47-51 | removing a pour leaves one pour fewer and takes its amount off the total |
| `FourSixPresetEditor.ChangeAmountTotal` | src/components/FourSixPresetEditor.tsx:53-58 | changing an amount replaces it with the input's value and moves the total by the difference |
| `FourSixPresetEditor.ChangeTimeKeepsPhases` | src/components/FourSixPresetEditor.tsx:53-58 | changing a time sets it and leaves the total, the marker and both phase totals |
| `FourSixPresetEditor.SameAmountsSamePhases` | src/components/FourSixPresetEditor.tsx:26-37 | lists with the same amounts share the total, the marker and the phase totals |
| `FourSixPresetEditor.CustomIdsDistinct` | src/components/FourSixPresetEditor.tsx:64 | ids made at different times differ, and none is a built-in's |
| `FourSixPresetEditor.SavedPresetLoads` | src/components/FourSixPresetEditor.tsx:60-72 | after a save that went through, the last loaded preset is valid, non-default, under the trimmed non-blank name |
| `FourSixPresetEditor.NewPresetFoundById` | src/components/FourSixPresetEditor.tsx:60-72 | a new preset's time-stamped id finds it again when no loaded preset already has it |
| `BrewingSteps.SecondsRemainder` | src/components/BrewingSteps.tsx:15 | the remainder takes the dividend's sign, is below 60 in size, and differs from the time by a multiple of 60 |
| `BrewingSteps.PadTwo` | src/components/BrewingSteps.tsx:16 | strings of two or more characters are kept; shorter ones are left-padded with zeros to two |
| `BrewingSteps.FormatTime` | src/components/BrewingSteps.tsx:13-17 | definition; its meaning is stated by FormatTimeShape, FormatTimeRoundTrip, FormatTimeInjective, FormatTimeExamples and FormatTimeNegative |
| `BrewingSteps.FormatTimeShape` | src/components/BrewingSteps.tsx:13-17 | a non-negative time renders as the minutes, a colon and exactly two digits of seconds |
| `BrewingSteps.FormatTimeRoundTrip` | src/components/BrewingSteps.tsx:13-17 | reading the rendering back as minutes x 60 + seconds gives the time |
| `BrewingSteps.FormatTimeInjective` | src/components/BrewingSteps.tsx:13-17 | different non-negative times render differently |
| `BrewingSteps.FormatTimeExamples` | src/components/BrewingSteps.tsx:13-17 | 0, 45 and 210 s render as 0:00, 0:45 and 3:30 |
| `BrewingSteps.FormatTimeNegative` | src/components/BrewingSteps.tsx:13-17 | -5 s renders as -1:-5: floored minutes and a negative remainder |
| `BrewingSteps.ShownTotalWater` | src/components/BrewingSteps.tsx:20-24 | nothing is shown exactly when there are no steps |
| `BrewingSteps.ShownTotalIsWaterSum` | src/components/BrewingSteps.tsx:24 | with running totals, the shown total is the sum of the step amounts |
| `BrewingSteps.ShownTotalIsRequested` | src/components/BrewingSteps.tsx:20-24 | for any method, the panel shows exactly the requested water, unless a custom 4:6 preset does not hold 300 g |

## Left out

- Floating point: amounts and water are exact reals. Binary rounding is not modelled, nor are `toFixed(1)` in the messages and NaN or infinite inputs. The 0.1 g tolerance is kept as written.
- Message texts: validation messages are reduced to their kind and the numbers they mention (`ValidationError`).
- The storage backend: reading the key, `JSON.parse` and its failures, and a parsed value that is not a list are all abstracted to `StoredValue` (`Absent`, `Unreadable`, `Stored`). A write that raises is the `writeFails` flag. The storage key and the `console.error` logging are not modelled.
- External inputs are parameters: `Date.now()` is the parameter `now`, and what `parseFloat` and `parseInt` read from an input box is given in `PourInput`.
- React rendering, the `onSave`/`onCancel` callbacks, the validation display and the other components of the editor and panel are not modelled. So are the component that opens the editor (it opens it only on a new preset) and the calculator form.
- Brew methods' generators are function values in the source. Here they are a `MethodKind` tag that `Schedule` dispatches on.
- FourSixPresetEditor.PresetEditor.ChangePour: requires an existing index. The source writes through an undefined element and throws for any other index, and that error path is not modelled.
- FourSixPresetEditor.PresetEditor.ChangePour: the source copies the list shallowly and writes the field into the pour object it shares with the previous state. The model builds a new list value, so that aliasing is not captured.
- BrewingSteps.FormatTime: times are whole seconds. Fractional seconds, which the source's number type would allow, are not modelled.
- `CoffeeTypes.CoffeeSettings` and the brew methods' credits and nominal brew times are data only; no operation of the core reads them.
