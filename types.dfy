/** The records shared by the brewing model (src/types/coffee.ts and the preset shape). */
module CoffeeTypes {

  datatype Option<+T> = None | Some(value: T)

  /** One pour of a 4:6 preset: grams written against the 300 g base, and the second it starts. */
  datatype FourSixPour = FourSixPour(amount: real, timeSeconds: int)

  /** A named 4:6 pour pattern; built-ins carry isDefault = true. */
  datatype FourSixPreset = FourSixPreset(id: string, name: string, pours: seq<FourSixPour>, isDefault: bool)

  /** One timed step of a brewing schedule. */
  datatype BrewStep = BrewStep(
    stepNumber: nat,
    waterAmount: real,
    cumulativeWater: real,
    timeSeconds: int,
    description: string)

  /** The calculator's settings; totalWater is recomputed from the other two. */
  datatype CoffeeSettings = CoffeeSettings(coffeeAmount: real, waterRatio: real, totalWater: real)

  /** Which step generator a brew method dispatches to. */
  datatype MethodKind = FourSix | Hoffman | SinglePour

  /** A brew method: its identity, credits, the nominal brew time, and its generator as a tag. */
  datatype BrewMethod = BrewMethod(
    id: string,
    name: string,
    description: string,
    creditName: Option<string>,
    creditUrl: Option<string>,
    totalBrewTime: nat,
    kind: MethodKind)
}
