/** Solar generation: an hour-of-day irradiance profile scaled to the
    installed capacity, with a bounded random perturbation. */
module Solar {
  import opened Numbers

  /** Hour of day -> irradiance G(i) in W/m2 for a 1 kWp reference system. */
  type Profile = map<int, real>

  /** The installation is 3 kWp; the profile describes 1 kWp. */
  const ScaleFactor: real := 3.0

  /** The perturbation is drawn from [-MaxVariationW, MaxVariationW], inclusive. */
  const MaxVariationW: int := 150

  /** The built-in profile used when no irradiance dataset can be read:
      daylight from 8h to 17h, peaking at noon. */
  const FallbackProfile: Profile :=
    map[8 := 100.0, 9 := 500.0, 10 := 1500.0, 11 := 2200.0, 12 := 3000.0,
        13 := 2800.0, 14 := 1800.0, 15 := 1000.0, 16 := 400.0, 17 := 50.0]

  /** Dictionary lookup with default 0 for hours the profile does not cover. */
  function Irradiance(p: Profile, hour: int): real {
    if hour in p then p[hour] else 0.0
  }

  /** Scaled generation before the perturbation is applied. */
  function BaseGenerationW(p: Profile, hour: int): real {
    Irradiance(p, hour) * ScaleFactor
  }

  predicate VariationInRange(variation: int) {
    -MaxVariationW <= variation <= MaxVariationW
  }

  /** Instantaneous solar output in whole watts at `hour`, with the random
      perturbation passed in as `variation`. */
  function Generation(p: Profile, hour: int, variation: int): (w: int)
    requires VariationInRange(variation)
    ensures w >= 0
    // no daylight: exactly zero, whatever the perturbation
    ensures BaseGenerationW(p, hour) <= 0.0 ==> w == 0
    // daylight: the perturbed value, clamped at zero and truncated to watts
    ensures BaseGenerationW(p, hour) > 0.0 && BaseGenerationW(p, hour) + variation as real <= 0.0 ==> w == 0
    ensures BaseGenerationW(p, hour) > 0.0 && BaseGenerationW(p, hour) + variation as real > 0.0 ==>
              w as real <= BaseGenerationW(p, hour) + variation as real < w as real + 1.0
    ensures w as real <= MaxReal(0.0, BaseGenerationW(p, hour) + MaxVariationW as real)
  {
    var base := BaseGenerationW(p, hour);
    if base > 0.0 then
      Truncate(MaxReal(0.0, base + variation as real))
    else
      0
  }

  /** The scaled fallback peak at noon is 9000 W. */
  lemma FallbackBaseAtNoon()
    ensures BaseGenerationW(FallbackProfile, 12) == 9000.0
  {
  }

  /** With the fallback profile every daylight hour gives exactly the scaled
      irradiance plus the perturbation: the clamp at zero never bites. */
  lemma FallbackDaylight(hour: int, variation: int)
    requires VariationInRange(variation)
    requires 8 <= hour <= 17
    ensures Generation(FallbackProfile, hour, variation) as real
         == FallbackProfile[hour] * ScaleFactor + variation as real
  {
    var base := BaseGenerationW(FallbackProfile, hour);
    var n: int :=
      if hour == 8 then 300 else if hour == 9 then 1500 else if hour == 10 then 4500
      else if hour == 11 then 6600 else if hour == 12 then 9000 else if hour == 13 then 8400
      else if hour == 14 then 5400 else if hour == 15 then 3000 else if hour == 16 then 1200
      else 150;
    assert base == n as real;
    TruncateIntegral(n + variation);
  }

  /** With the fallback profile, generation is zero exactly outside 8h-17h,
      and at 17h when the perturbation is its most negative. */
  lemma FallbackZeroExactly(hour: int, variation: int)
    requires VariationInRange(variation)
    ensures Generation(FallbackProfile, hour, variation) == 0
        <==> (hour < 8 || hour > 17 || (hour == 17 && variation == -MaxVariationW))
  {
    if 8 <= hour <= 17 {
      FallbackDaylight(hour, variation);
      assert FallbackProfile[hour] * ScaleFactor >= 150.0;
      if hour < 17 {
        assert FallbackProfile[hour] * ScaleFactor >= 300.0;
      }
    } else {
      assert hour !in FallbackProfile;
    }
  }
}
