/** The household aggregate: battery storage, appliance registry and solar
    profile, owned by the caller and threaded through every tick. */
module Home {
  import opened Appliances
  import Solar
  import Consumption
  import Battery

  datatype Home = Home(storage: Battery.Storage, appliances: Registry, profile: Solar.Profile)

  /** A freshly constructed household, when no irradiance dataset is available. */
  const Initial: Home := Home(Battery.InitialStorage, InitialRegistry, Solar.FallbackProfile)

  predicate Valid(h: Home) {
    Battery.Valid(h.storage)
  }

  /** The outside world's contribution to one tick: the clock's hour and the
      random draws, passed in explicitly. */
  datatype TickInput = TickInput(hour: int, variation: int, factor: Appliance -> real)

  predicate InputInRange(i: TickInput) {
    Solar.VariationInRange(i.variation) && Consumption.FactorsInRange(i.factor)
  }

  /** One reading of the dashboard log, plus what the battery reported. */
  datatype Reading = Reading(generationW: int, consumptionW: int, percent: int, gridDrawW: int)

  datatype TickResult = TickResult(home: Home, reading: Reading)

  /** One refresh: generation, then consumption, then the battery update. */
  function Tick(h: Home, input: TickInput): (r: TickResult)
    requires InputInRange(input)
    ensures Valid(h) ==> Valid(r.home) && 0 <= r.reading.percent <= 100
    ensures r.reading.generationW >= 0 && r.reading.consumptionW >= 0 && r.reading.gridDrawW >= 0
    ensures r.reading.generationW >= r.reading.consumptionW ==> r.reading.gridDrawW == 0
    ensures r.home.appliances == h.appliances && r.home.profile == h.profile
    ensures r.home.storage.selfConsumedWh >= h.storage.selfConsumedWh
    ensures r.home.storage.gridWh >= h.storage.gridWh
  {
    var generation := Solar.Generation(h.profile, input.hour, input.variation);
    var consumption := Consumption.ConsumptionW(h.appliances, input.factor);
    var step := Battery.Update(h.storage, generation, consumption);
    TickResult(h.(storage := step.storage), Reading(generation, consumption, step.percent, step.gridDrawW))
  }

  /** A session of consecutive ticks. */
  function Run(h: Home, inputs: seq<TickInput>): Home
    requires forall i :: 0 <= i < |inputs| ==> InputInRange(inputs[i])
    decreases |inputs|
  {
    if inputs == [] then h else Run(Tick(h, inputs[0]).home, inputs[1..])
  }

  /** Over any number of ticks the level stays within capacity, the counters
      never decrease and neither the registry nor the profile changes. */
  lemma {:induction false} RunKeepsInvariant(h: Home, inputs: seq<TickInput>)
    requires forall i :: 0 <= i < |inputs| ==> InputInRange(inputs[i])
    requires Valid(h)
    ensures Valid(Run(h, inputs))
    ensures Run(h, inputs).storage.selfConsumedWh >= h.storage.selfConsumedWh
    ensures Run(h, inputs).storage.gridWh >= h.storage.gridWh
    ensures Run(h, inputs).appliances == h.appliances && Run(h, inputs).profile == h.profile
    decreases |inputs|
  {
    if inputs != [] {
      var next := Tick(h, inputs[0]).home;
      assert forall i :: 0 <= i < |inputs[1..]| ==> InputInRange(inputs[1..][i]) by {
        forall i | 0 <= i < |inputs[1..]| ensures InputInRange(inputs[1..][i]) {
          assert inputs[1..][i] == inputs[i + 1];
        }
      }
      RunKeepsInvariant(next, inputs[1..]);
    }
  }

  /** The household starts in a valid state. */
  lemma InitialIsValid()
    ensures Valid(Initial)
    ensures Battery.Percent(Initial.storage.levelWh) == 70
  {
  }
}
