/** The battery state machine: one tick turns the instantaneous balance of
    generation and consumption (in watts) into a change of stored energy
    (in watt-hours), and works out what the grid must supply. */
module Battery {
  import opened Numbers

  const CapacityWh: real := 10000.0
  const InitialLevelWh: real := 7000.0
  /** Charging power is capped at this many watts. */
  const MaxChargeW: int := 5000
  /** One tick moves one second of energy: 1/3600 of an hour. */
  const TimeFactor: real := 1.0 / 3600.0

  /** Stored energy and the two running counters of where deficits were met. */
  datatype Storage = Storage(levelWh: real, selfConsumedWh: real, gridWh: real)

  const InitialStorage: Storage := Storage(InitialLevelWh, 0.0, 0.0)

  predicate Valid(s: Storage) {
    0.0 <= s.levelWh <= CapacityWh
  }

  /** State of charge as a whole percentage of capacity. */
  function Percent(levelWh: real): (p: int)
    ensures 0.0 <= levelWh <= CapacityWh ==> 0 <= p <= 100
    ensures 0.0 <= levelWh ==> p as real <= levelWh / CapacityWh * 100.0 < p as real + 1.0
  {
    Truncate(levelWh / CapacityWh * 100.0)
  }

  /** What a tick returns: the new storage, the state of charge and the
      grid draw in whole watts. */
  datatype Step = Step(storage: Storage, percent: int, gridDrawW: int)

  function Finish(s: Storage, gridW: real): Step {
    Step(s, Percent(s.levelWh), Truncate(gridW))
  }

  /** One tick of the battery controller. */
  function Update(s: Storage, generationW: int, consumptionW: int): (r: Step)
    // the level stays within capacity and the percentage within [0, 100]
    ensures Valid(s) ==> Valid(r.storage) && 0 <= r.percent <= 100
    // what is reported is the new level's percentage
    ensures r.percent == Percent(r.storage.levelWh)
    // grid draw is never negative, and both counters only grow
    ensures r.gridDrawW >= 0
    ensures r.storage.selfConsumedWh >= s.selfConsumedWh
    ensures r.storage.gridWh >= s.gridWh
    // balanced: nothing happens
    ensures generationW == consumptionW ==> r.storage == s && r.gridDrawW == 0
    // surplus: no grid, counters untouched, the level rises by the capped
    // charge unless capacity is reached first
    ensures generationW > consumptionW ==>
              && r.gridDrawW == 0
              && r.storage.selfConsumedWh == s.selfConsumedWh
              && r.storage.gridWh == s.gridWh
              && r.storage.levelWh <= CapacityWh
              && r.storage.levelWh <= s.levelWh + MinInt(generationW - consumptionW, MaxChargeW) as real * TimeFactor
              && r.storage.levelWh <= s.levelWh + MaxChargeW as real * TimeFactor
              && (s.levelWh <= CapacityWh ==> s.levelWh <= r.storage.levelWh)
              && (r.storage.levelWh == CapacityWh
                  || r.storage.levelWh == s.levelWh + MinInt(generationW - consumptionW, MaxChargeW) as real * TimeFactor)
    // deficit: the battery's loss is exactly the self-consumed energy, and
    // battery plus grid together supply exactly the missing energy
    ensures generationW < consumptionW ==>
              && s.levelWh - r.storage.levelWh == r.storage.selfConsumedWh - s.selfConsumedWh
              && (r.storage.selfConsumedWh - s.selfConsumedWh) + (r.storage.gridWh - s.gridWh)
                 == (consumptionW - generationW) as real * TimeFactor
    // deficit on an empty battery: the grid supplies all of it
    ensures generationW < consumptionW && s.levelWh <= 0.0 ==>
              && r.storage.levelWh == s.levelWh
              && r.gridDrawW == consumptionW - generationW
              && r.storage.gridWh == s.gridWh + (consumptionW - generationW) as real * TimeFactor
    // deficit the battery can cover: no grid, the level drops by the deficit
    ensures generationW < consumptionW && s.levelWh >= (consumptionW - generationW) as real * TimeFactor ==>
              && r.gridDrawW == 0
              && r.storage.gridWh == s.gridWh
              && r.storage.levelWh == s.levelWh - (consumptionW - generationW) as real * TimeFactor
    // deficit that drains the battery: empty afterwards, the grid supplies the rest
    ensures generationW < consumptionW && 0.0 < s.levelWh < (consumptionW - generationW) as real * TimeFactor ==>
              && r.storage.levelWh == 0.0
              && r.storage.selfConsumedWh == s.selfConsumedWh + s.levelWh
              && r.gridDrawW == Truncate((consumptionW - generationW) as real - s.levelWh / TimeFactor)
  {
    var balance := generationW - consumptionW;
    if balance > 0 then
      var charge := MinInt(balance, MaxChargeW);
      var level := MinReal(s.levelWh + charge as real * TimeFactor, CapacityWh);
      Finish(s.(levelWh := level), 0.0)
    else if balance < 0 then
      var demand := -balance;
      var requested := demand as real * TimeFactor;
      if s.levelWh > 0.0 then
        var fromBattery := MinReal(s.levelWh, requested);
        var level := MaxReal(0.0, s.levelWh - fromBattery);
        var selfConsumed := s.selfConsumedWh + fromBattery;
        if level == 0.0 && demand > 0 then
          var gridW := demand as real - fromBattery / TimeFactor;
          Finish(Storage(level, selfConsumed, s.gridWh + gridW * TimeFactor), gridW)
        else
          Finish(Storage(level, selfConsumed, s.gridWh), 0.0)
      else
        Finish(s.(gridWh := s.gridWh + demand as real * TimeFactor), demand as real)
    else
      Finish(s, 0.0)
  }
}
