# SmartHome energy model in Dafny

This project models the household energy core of a solar-plus-battery smart
home simulator (`SmartHome` in `casa_inteligente.py`). It covers four parts:

- the solar generation simulator, which scales an hour-of-day irradiance
  profile by the installed 3 kWp and adds a bounded perturbation;
- the consumption aggregator, which sums the noisy draw of every appliance
  that is "Ligado";
- the battery controller (`atualizar_bateria`). Each tick, it charges or
  discharges a 10 000 Wh battery, caps charging at 5 000 W, and sends any
  deficit the battery cannot cover to the grid;
- the appliance registry (`controlar_aparelho`) and the load-shedding
  optimizer (`otimizar_consumo`).

The model is functional. The household is an immutable `Home` record holding
the battery `Storage` (level, self-consumed Wh, grid Wh), a `Registry` map over
a fixed `Appliance` enumeration, and the irradiance `Profile`. Every operation
is a pure function that returns the new state together with its outputs.
Energy is exact `real` arithmetic, and one tick is `1/3600` of an hour. Python's
`int(...)` on a float is modelled as truncation toward zero (`Numbers.Truncate`).

The clock and the random draws are parameters:
- the hour of day;
- the generation perturbation, an integer in [-150, 150];
- one consumption noise factor per appliance, in [0.9, 1.1].

Modules: `Wrappers` (Option), `Numbers`, `Appliances`, `Solar`, `Consumption`,
`Battery`, `Home` (the aggregate and the caller's per-tick sequence) and
`Optimizer`.

The dashboard labels the 5000 W rate as the charge/discharge maximum
(`app.py:103`), but `casa_inteligente.py:91` caps only charging. The model
follows `casa_inteligente.py`: a deficit is limited only by the energy stored.

## Model

| member | source | states |
|---|---|---|
| Numbers.Truncate | casa_inteligente.py:116 | Python `int()` on a float: the result is the whole part of the value, toward zero, on both signs |
| Appliances.ParseName | casa_inteligente.py:119 | a registry key is accepted exactly when it is one of the four catalog names, and is read back as that appliance |
| Appliances.ParseSwitch | casa_inteligente.py:119 | a state text is accepted exactly when it is "Ligado" or "Desligado" |
| Appliances.CatalogListsEveryApplianceOnce | casa_inteligente.py:20-25 | the catalog order lists every appliance, each once |
| Appliances.Switched | casa_inteligente.py:120 | switching one appliance sets its state, keeps its rating and leaves every other entry untouched |
| Appliances.SetState | casa_inteligente.py:118-122 | accepted iff the name is in the catalog and the state is "Ligado"/"Desligado"; when accepted, only the named appliance changes and the confirmation text is returned; otherwise the registry is unchanged and the "inválido" text is returned |
| Appliances.SetStateRoundTrip | casa_inteligente.py:118-122 | setting any state and then setting back the original state restores the registry exactly |
| Appliances.SetStateIdempotent | casa_inteligente.py:118-122 | repeating a request changes nothing further |
| Solar.Generation | casa_inteligente.py:61-75 | output is never negative; exactly 0 when the scaled irradiance is 0, whatever the perturbation; otherwise the perturbed value clamped at 0 and truncated to whole watts, at most base + 150 |
| Solar.FallbackBaseAtNoon | casa_inteligente.py:56-68 | with the fallback table the scaled noon value, before perturbation, is 9000 W |
| Solar.FallbackDaylight | casa_inteligente.py:56-73 | with the fallback table, every hour from 8 to 17 yields exactly 3 × irradiance + perturbation (the clamp at zero never applies) |
| Solar.FallbackZeroExactly | casa_inteligente.py:56-75 | with the fallback table generation is 0 iff the hour is outside 8-17, or it is 17 with perturbation -150 |
| Consumption.RatedOnOverCounts | casa_inteligente.py:79-82 | every appliance visited by the loop has its rated draw counted in the rated total |
| Consumption.RatedOnOverZeroIff | casa_inteligente.py:79-82 | the rated total over a visiting order is zero iff each visited appliance is off or rated 0 W |
| Consumption.CatalogRatedZeroIff | casa_inteligente.py:20-25 | over the whole catalog the rated total is zero iff every appliance is off or rated 0 W |
| Consumption.ContributionWithinTenPercent | casa_inteligente.py:80-82 | one switched-on appliance's noisy draw lies between 0.9 and 1.1 times its rating; an off appliance adds nothing |
| Consumption.LoadWithinTenPercent | casa_inteligente.py:77-83 | the noisy sum lies between 0.9 and 1.1 times the summed ratings of the switched-on appliances |
| Consumption.LoadIgnoresOffAppliances | casa_inteligente.py:79-82 | appliances that are off contribute nothing: their ratings and noise factors do not affect the sum |
| Consumption.LoadMonotone | casa_inteligente.py:79-82 | switching appliances off never raises the sum |
| Consumption.AllOffRatesZero | casa_inteligente.py:79-82 | with every appliance off the rated total is zero |
| Consumption.ConsumptionW | casa_inteligente.py:77-83 | total consumption is ≥ 0, within 10% of the rated draw of the switched-on appliances (up to truncation), and 0 when all are off or every switched-on appliance is rated 0 W |
| Consumption.TotalConsumption | casa_inteligente.py:77-83 | the accumulation loop over the registry computes the same total as the recursive definition |
| Battery.Percent | casa_inteligente.py:115 | for a level within capacity the percentage is in [0, 100] and is the whole part of level/capacity × 100 |
| Battery.Update | casa_inteligente.py:85-116 | level stays in [0, capacity] and percentage in [0, 100]; grid draw ≥ 0; both counters never decrease; balance 0 changes nothing; surplus: no grid draw, counters unchanged, level does not fall and rises by at most the applied charge min(surplus, 5000)/3600 Wh (so at most 5000/3600 Wh), reaching either exactly that or capacity; deficit: the battery's loss equals the self-consumed gain, and battery plus grid supply exactly deficit/3600 Wh; empty battery: grid draw equals the deficit; battery covering the deficit: no grid draw and the level drops by exactly deficit/3600; draining battery: level 0 and grid draw is deficit − level·3600 |
| Home.InitialIsValid | casa_inteligente.py:15-29 | the freshly built household is within capacity at 70% |
| Home.Tick | app.py:89-91 | one refresh keeps the level in range, reports non-negative generation, consumption and grid draw, no grid draw when generation covers consumption, leaves registry and profile alone, and never decreases the counters |
| Home.RunKeepsInvariant | app.py:89-91 | over any sequence of ticks the level stays within capacity, both counters never decrease, and registry and profile are unchanged |
| Optimizer.OnAmongHighRisk | casa_inteligente.py:130-138 | the appliances to shed are the shower if on, then the air conditioner if on |
| Optimizer.Optimize | casa_inteligente.py:124-145 | inactive iff not (percentage < 25 and freshly sampled generation < 500), and then nothing changes; when active, shower and air conditioner end up off, the shed list is exactly those that were on in that order, and "already optimal" is reported iff both were already off; battery, profile, ratings and all other appliances are untouched |
| Optimizer.OptimizeTwiceShedsNothing | casa_inteligente.py:128-143 | a second call right after an active one (or with the same sample) sheds nothing and changes nothing; under a still-critical condition it reports "already optimal" |
| Optimizer.OptimizeNeverRaisesConsumption | casa_inteligente.py:130-138 | shedding never raises total consumption, for any noise factors |
| Optimizer.Message | casa_inteligente.py:140-145 | each outcome maps to the source's text: the shed report (leading ⚠️, ending " para evitar gasto da Rede."), the "já estão desligados" text, and the inactive text; the leading symbol tells the three outcomes apart |
| Optimizer.ActivationReportNamesExactlyShed | casa_inteligente.py:130-141 | an activation report is the source's lead, then exactly the shed names joined with ", " ("Chuveiro, Ar Condicionado", "Chuveiro" or "Ar Condicionado" according to which were on), then the source's tail; no appliance that was not shed is named |
| Optimizer.JoinNamesListsEach | casa_inteligente.py:141 | the names joined with ", " include the name of every shed appliance |
| Optimizer.MessageNamesEveryShed | casa_inteligente.py:140-141 | the activation report names every appliance that was shed |
| Optimizer.ShedsBothWhenBothOn | casa_inteligente.py:128-141 | with both high-risk appliances on under the critical condition both are shed, shower first, and the report lists "Chuveiro, Ar Condicionado" |

## Left out

- Loading the irradiance dataset from CSV (`casa_inteligente.py:36-51`) is left out: it is file I/O and datetime parsing in pandas. The profile is a field of `Home`, and `Home.Initial` uses the built-in fallback table.
- The clock (`datetime.now().hour`) and the `random` module are left out. The hour, the generation perturbation and the per-appliance noise factors are parameters. Only the perturbation (in [-150, 150]) and the noise factors (in [0.9, 1.1]) carry range requirements, matching the source's random draws. The hour may be any integer; hours the profile does not cover give no generation.
- The optimizer's fresh generation sample is modelled by giving `Optimizer.Optimize` its own hour and perturbation parameters. Nothing ties them to the tick's sample, as in the source.
- `get_log_for_ai` and `analisar_log_com_gemini` are left out. They format prompt text through pandas `tail`, `iterrows` and `strftime`, or return a fixed string.
- app.py is left out: Streamlit rendering, session state, the rolling log, the CO2 metric and the external text-generation call. `Home.Tick` models only its three-call per-tick sequence.
- IEEE floating-point rounding is left out; all energy arithmetic is exact.
- Battery.Update: uses exact reals. With floats, the source's `nivel_bateria == 0` test and the grid-draw subtraction can differ in the last bit.
