/**
 * The arithmetic of the brewing-steps panel (src/components/BrewingSteps.tsx): the m:ss rendering
 * of a start time, and the total water the panel shows (nothing at all for an empty schedule).
 */
module BrewingSteps {
  import opened CoffeeTypes
  import opened Decimal
  import opened Pours
  import opened PresetStorage
  import opened CoffeeCalculations

  /** `seconds % 60` in JavaScript: the remainder takes the sign of the dividend. */
  function SecondsRemainder(seconds: int): (r: int)
    ensures seconds >= 0 ==> 0 <= r < 60
    ensures seconds < 0 ==> -60 < r <= 0
    ensures (seconds - r) % 60 == 0
  {
    if seconds >= 0 then seconds % 60 else -((-seconds) % 60)
  }

  /** `padStart(2, '0')`: left-pad with zeros to two characters; longer strings are kept. */
  function PadTwo(s: string): (r: string)
    ensures |s| >= 2 ==> r == s
    ensures |s| < 2 ==> |r| == 2 && r[2 - |s|..] == s && forall i :: 0 <= i < 2 - |s| ==> r[i] == '0'
  {
    if |s| >= 2 then s else seq(2 - |s|, _ => '0') + s
  }

  /**
   * `formatTime`: whole minutes (rounded down), a colon, then the seconds remainder padded to two
   * characters.
   */
  function FormatTime(seconds: int): string {
    var mins := seconds / 60;
    var secs := SecondsRemainder(seconds);
    IntToString(mins) + ":" + PadTwo(IntToString(secs))
  }

  /** For a non-negative time: the minutes in decimal, a colon, and exactly two digits of seconds. */
  lemma FormatTimeShape(seconds: int)
    requires seconds >= 0
    ensures var t := FormatTime(seconds);
      |t| >= 4 && t[|t| - 3] == ':' &&
      t[..|t| - 3] == NatToString(seconds / 60) &&
      AllDigits(t[|t| - 2..]) && ParseDigits(t[|t| - 2..]) == seconds % 60
  {
    var m := NatToString(seconds / 60);
    var secs := NatToString(seconds % 60);
    var padded := PadTwo(secs);
    var t := FormatTime(seconds);
    assert t == m + ":" + padded;
    assert t[..|t| - 3] == m;
    assert t[|t| - 2..] == padded;
    ParseNatToString(seconds % 60);
    if |secs| == 1 {
      assert padded == ['0'] + secs;
      assert padded[..1] == ['0'];
      assert padded[1..] == secs;
    }
  }

  /** Reading the rendering back gives the time: minutes times 60 plus the two-digit seconds. */
  lemma FormatTimeRoundTrip(seconds: int)
    requires seconds >= 0
    ensures var t := FormatTime(seconds);
      |t| >= 4 && AllDigits(t[..|t| - 3]) && AllDigits(t[|t| - 2..]) &&
      ParseDigits(t[..|t| - 3]) * 60 + ParseDigits(t[|t| - 2..]) == seconds
  {
    FormatTimeShape(seconds);
    ParseNatToString(seconds / 60);
  }

  /** Different non-negative times render differently. */
  lemma FormatTimeInjective(s1: int, s2: int)
    requires s1 >= 0 && s2 >= 0
    requires FormatTime(s1) == FormatTime(s2)
    ensures s1 == s2
  {
    var t := FormatTime(s1);
    FormatTimeRoundTrip(s1);
    FormatTimeRoundTrip(s2);
    assert s1 == ParseDigits(t[..|t| - 3]) * 60 + ParseDigits(t[|t| - 2..]) == s2;
  }

  /** Schedule times as shown: 0 s, 45 s and the 4:6 method's 210 s. */
  lemma FormatTimeExamples()
    ensures FormatTime(0) == "0:00"
    ensures FormatTime(45) == "0:45"
    ensures FormatTime(210) == "3:30"
  {
    assert NatToString(45) == "45";
    assert NatToString(30) == "30";
  }

  /** A negative time renders with a floored minute and a negative remainder. */
  lemma FormatTimeNegative()
    ensures FormatTime(-5) == "-1:-5"
  {
    assert -5 / 60 == -1;
    assert SecondsRemainder(-5) == -5;
    assert NatToString(5) == "5" && NatToString(1) == "1";
    assert PadTwo("-5") == "-5";
  }

  /** The panel: nothing for an empty schedule, otherwise the last step's cumulative water. */
  function ShownTotalWater(steps: seq<BrewStep>): (shown: Option<real>)
    ensures shown.None? <==> steps == []
  {
    if steps == [] then None else Some(steps[|steps| - 1].cumulativeWater)
  }

  /** With running totals, the shown total is the sum of all step amounts. */
  lemma ShownTotalIsWaterSum(steps: seq<BrewStep>)
    requires steps != [] && RunningTotals(steps)
    ensures ShownTotalWater(steps) == Some(WaterSum(steps))
  {
    assert steps[..|steps|] == steps;
  }

  /**
   * For every method, the panel shows exactly the requested water, unless a custom 4:6 preset
   * does not hold 300 g.
   */
  lemma ShownTotalIsRequested(stored: StoredValue, kind: MethodKind, totalWater: real, presetId: Option<string>)
    requires kind == FourSix ==> match ResolvePreset(stored, presetId)
      case Some(p) => p.pours != [] && AmountSum(p.pours) == BASE_WATER
      case None => true
    ensures ShownTotalWater(Schedule(stored, kind, totalWater, presetId)) == Some(totalWater)
  {
    ScheduleEndsAtTotal(stored, kind, totalWater, presetId);
  }
}
