/** The load-shedding policy: with a low battery and little sun, switch off
    the high-draw appliances. */
module Optimizer {
  import opened Appliances
  import opened Home
  import Solar
  import Battery
  import Consumption

  const BatteryThresholdPercent: int := 25
  const GenerationThresholdW: int := 500

  /** The appliances shed, in the order they are examined. */
  const HighRisk: seq<Appliance> := [Chuveiro, ArCondicionado]

  /** The critical condition under which shedding happens. */
  predicate Critical(percent: int, generationW: int) {
    percent < BatteryThresholdPercent && generationW < GenerationThresholdW
  }

  /** Reference: the appliances of `order` that are on in `reg`, in order. */
  function OnAmong(reg: Registry, order: seq<Appliance>): seq<Appliance> {
    if order == [] then []
    else (if reg[order[0]].state == On then [order[0]] else []) + OnAmong(reg, order[1..])
  }

  lemma OnAmongHighRisk(reg: Registry)
    ensures OnAmong(reg, HighRisk)
         == (if reg[Chuveiro].state == On then [Chuveiro] else [])
          + (if reg[ArCondicionado].state == On then [ArCondicionado] else [])
  {
    assert HighRisk[1..] == [ArCondicionado];
    assert [ArCondicionado][1..] == [];
    var tail := if reg[ArCondicionado].state == On then [ArCondicionado] else [];
    assert OnAmong(reg, [ArCondicionado]) == tail + OnAmong(reg, []);
    assert OnAmong(reg, [ArCondicionado]) == tail;
  }

  datatype Outcome = Activated(shed: seq<Appliance>) | AlreadyOptimal | Inactive

  datatype Optimization = Optimization(home: Home, outcome: Outcome)

  datatype Shedding = Shedding(registry: Registry, shed: seq<Appliance>)

  /** Switch `a` off if it is on, noting it as shed. */
  function ShedIfOn(acc: Shedding, a: Appliance): Shedding {
    if acc.registry[a].state == On then Shedding(Switched(acc.registry, a, Off), acc.shed + [a])
    else acc
  }

  /** One optimizer invocation. It samples generation afresh for `hour` with
      the perturbation `variation` rather than reusing the tick's reading. */
  function Optimize(h: Home, hour: int, variation: int): (r: Optimization)
    requires Solar.VariationInRange(variation)
    ensures r.home.storage == h.storage && r.home.profile == h.profile
    ensures r.outcome.Inactive?
        <==> !Critical(Battery.Percent(h.storage.levelWh), Solar.Generation(h.profile, hour, variation))
    ensures r.outcome.Inactive? ==> r.home == h
    ensures !r.outcome.Inactive? ==> forall a :: a in HighRisk ==> r.home.appliances[a].state == Off
    ensures forall a :: a !in HighRisk ==> r.home.appliances[a] == h.appliances[a]
    ensures forall a :: r.home.appliances[a].ratedW == h.appliances[a].ratedW
    ensures r.outcome.Activated? ==> r.outcome.shed == OnAmong(h.appliances, HighRisk) && r.outcome.shed != []
    ensures r.outcome.AlreadyOptimal? <==>
              && Critical(Battery.Percent(h.storage.levelWh), Solar.Generation(h.profile, hour, variation))
              && forall a :: a in HighRisk ==> h.appliances[a].state == Off
  {
    var generation := Solar.Generation(h.profile, hour, variation);
    if Critical(Battery.Percent(h.storage.levelWh), generation) then
      var afterShower := ShedIfOn(Shedding(h.appliances, []), Chuveiro);
      var afterAir := ShedIfOn(afterShower, ArCondicionado);
      OnAmongHighRisk(h.appliances);
      var home := h.(appliances := afterAir.registry);
      if afterAir.shed != [] then Optimization(home, Activated(afterAir.shed))
      else Optimization(home, AlreadyOptimal)
    else
      Optimization(h, Inactive)
  }

  /** A second invocation right after one that found the condition critical
      (or one sampling the same hour and perturbation) sheds nothing and
      leaves the household as the first one left it; if the condition still
      holds it reports that everything is already off. */
  lemma OptimizeTwiceShedsNothing(h: Home, hour: int, variation: int, hour': int, variation': int)
    requires Solar.VariationInRange(variation) && Solar.VariationInRange(variation')
    requires !Optimize(h, hour, variation).outcome.Inactive? || (hour' == hour && variation' == variation)
    ensures Optimize(Optimize(h, hour, variation).home, hour', variation').home == Optimize(h, hour, variation).home
    ensures !Optimize(Optimize(h, hour, variation).home, hour', variation').outcome.Activated?
    ensures !Optimize(h, hour, variation).outcome.Inactive?
            && Critical(Battery.Percent(h.storage.levelWh), Solar.Generation(h.profile, hour', variation'))
            ==> Optimize(Optimize(h, hour, variation).home, hour', variation').outcome == AlreadyOptimal
  {
    var first := Optimize(h, hour, variation);
    var second := Optimize(first.home, hour', variation');
    if first.outcome.Inactive? {
      assert second == first;
    } else if !second.outcome.Inactive? {
      forall a ensures second.home.appliances[a] == first.home.appliances[a] {
        if a in HighRisk {
          assert first.home.appliances[a].state == Off;
        }
      }
    }
  }

  /** Shedding never raises consumption, for any noise factors. */
  lemma OptimizeNeverRaisesConsumption(h: Home, hour: int, variation: int, factor: Appliance -> real)
    requires Solar.VariationInRange(variation)
    requires Consumption.FactorsInRange(factor)
    ensures Consumption.ConsumptionW(Optimize(h, hour, variation).home.appliances, factor)
         <= Consumption.ConsumptionW(h.appliances, factor)
  {
    var after := Optimize(h, hour, variation).home.appliances;
    Consumption.LoadMonotone(after, h.appliances, factor, Catalog);
  }

  /** Both high-risk appliances on under the critical condition: both are
      shed, shower first, and the report lists both names. */
  lemma ShedsBothWhenBothOn(h: Home, hour: int, variation: int)
    requires Solar.VariationInRange(variation)
    requires Critical(Battery.Percent(h.storage.levelWh), Solar.Generation(h.profile, hour, variation))
    requires h.appliances[Chuveiro].state == On && h.appliances[ArCondicionado].state == On
    ensures Optimize(h, hour, variation).outcome == Activated([Chuveiro, ArCondicionado])
    ensures JoinNames(Optimize(h, hour, variation).outcome.shed) == "Chuveiro, Ar Condicionado"
  {
    var r := Optimize(h, hour, variation);
    OnAmongHighRisk(h.appliances);
    assert !r.outcome.Inactive?;
    assert !r.outcome.AlreadyOptimal? by {
      assert Chuveiro in HighRisk;
    }
    assert r.outcome.shed == [Chuveiro, ArCondicionado];
    JoinBothHighRisk();
  }

  lemma JoinBothHighRisk()
    ensures JoinNames([Chuveiro, ArCondicionado]) == "Chuveiro, Ar Condicionado"
  {
    var parts := seq(2, k requires 0 <= k < 2 => Name([Chuveiro, ArCondicionado][k]));
    assert parts == ["Chuveiro", "Ar Condicionado"];
    assert parts[1..] == ["Ar Condicionado"];
    assert JoinNames([Chuveiro, ArCondicionado]) == Join(parts);
    assert Join(parts) == "Chuveiro" + ", " + Join(["Ar Condicionado"]);
  }

  // Each report's leading symbol is its own literal, so that its first
  // character can be named in contracts.
  const ActivatedLead: string :=
    "⚠" + "️ **Otimização Ativada!** Condição Crítica (Bat. < 25% e Geração Baixa). Desligado: "
  const ActivatedTail: string := " para evitar gasto da Rede."
  const AlreadyOptimalText: string :=
    "✅" + " **Otimização Ativa:** Condição Crítica, mas todos os aparelhos de risco já estão desligados. Economia máxima."
  const InactiveText: string :=
    "▶" + "️ **Otimização Inativa:** Condições normais. Não é necessário reduzir o consumo."

  /** The optimizer's report, as shown on the dashboard. Its leading symbol
      tells the three outcomes apart. */
  function Message(o: Outcome): (r: string)
    ensures |r| > 0
    ensures o.Activated? <==> r[0] == '⚠'
    ensures o.AlreadyOptimal? <==> r[0] == '✅'
    ensures o.Inactive? <==> r[0] == '▶'
    ensures o.Activated? ==> ActivatedLead <= r && r[|r| - |ActivatedTail|..] == ActivatedTail
    ensures o.AlreadyOptimal? ==> r == AlreadyOptimalText
    ensures o.Inactive? ==> r == InactiveText
  {
    match o
    case Activated(shed) => ActivatedLead + JoinNames(shed) + ActivatedTail
    case AlreadyOptimal => AlreadyOptimalText
    case Inactive => InactiveText
  }

  /** Texts separated by ", ". */
  function Join(parts: seq<string>): string {
    if parts == [] then ""
    else if |parts| == 1 then parts[0]
    else parts[0] + ", " + Join(parts[1..])
  }

  /** The registry names of the shed appliances, separated by ", ". */
  function JoinNames(shed: seq<Appliance>): string {
    Join(seq(|shed|, k requires 0 <= k < |shed| => Name(shed[k])))
  }

  /** `part` occurs inside `whole` starting at position `k`. */
  predicate OccursAt(part: string, whole: string, k: int) {
    0 <= k && k + |part| <= |whole| && whole[k..k + |part|] == part
  }

  /** `part` occurs somewhere inside `whole`. */
  predicate Occurs(part: string, whole: string) {
    exists k | 0 <= k <= |whole| :: OccursAt(part, whole, k)
  }

  /** Text found inside `b` is still found inside `a + b + c`, shifted by `|a|`. */
  lemma OccursAtShift(part: string, a: string, b: string, c: string, k: int)
    requires OccursAt(part, b, k)
    ensures OccursAt(part, a + b + c, |a| + k)
  {
    var whole := a + b + c;
    assert |whole| == |a| + |b| + |c|;
    assert whole[|a| + k..|a| + k + |part|] == b[k..k + |part|];
  }

  lemma OccursInMiddle(part: string, a: string, b: string, c: string)
    requires Occurs(part, b)
    ensures Occurs(part, a + b + c)
  {
    var k :| 0 <= k <= |b| && OccursAt(part, b, k);
    OccursAtShift(part, a, b, c, k);
    assert 0 <= |a| + k <= |a + b + c|;
  }

  /** The activation report names exactly the appliances this call shed,
      shower first, and nothing else. */
  lemma ActivationReportNamesExactlyShed(h: Home, hour: int, variation: int)
    requires Solar.VariationInRange(variation)
    ensures var o := Optimize(h, hour, variation).outcome;
            o.Activated? ==>
              Message(o) == ActivatedLead
                + (if h.appliances[Chuveiro].state == On && h.appliances[ArCondicionado].state == On
                   then "Chuveiro, Ar Condicionado"
                   else if h.appliances[Chuveiro].state == On then "Chuveiro"
                   else "Ar Condicionado")
                + ActivatedTail
  {
    var o := Optimize(h, hour, variation).outcome;
    if o.Activated? {
      OnAmongHighRisk(h.appliances);
      var shower := h.appliances[Chuveiro].state == On;
      var air := h.appliances[ArCondicionado].state == On;
      if shower && air {
        assert o.shed == [Chuveiro, ArCondicionado];
        JoinBothHighRisk();
      } else if shower {
        assert o.shed == [Chuveiro];
        assert JoinNames([Chuveiro]) == "Chuveiro";
      } else {
        assert o.shed == [ArCondicionado];
        assert JoinNames([ArCondicionado]) == "Ar Condicionado";
      }
      assert Message(o) == ActivatedLead + JoinNames(o.shed) + ActivatedTail;
    }
  }

  /** The joined text contains every part. */
  lemma {:induction false} JoinListsEach(parts: seq<string>, i: int)
    requires 0 <= i < |parts|
    ensures Occurs(parts[i], Join(parts))
    decreases |parts|
  {
    var whole := Join(parts);
    var part := parts[i];
    assert part[0..|part|] == part;
    assert OccursAt(part, part, 0);
    if |parts| == 1 {
      assert whole == part;
    } else if i == 0 {
      var rest := ", " + Join(parts[1..]);
      OccursAtShift(part, "", part, rest, 0);
      assert "" + part + rest == whole;
    } else {
      var tail := Join(parts[1..]);
      JoinListsEach(parts[1..], i - 1);
      assert parts[1..][i - 1] == part;
      var k :| 0 <= k <= |tail| && OccursAt(part, tail, k);
      var lead := parts[0] + ", ";
      OccursAtShift(part, lead, tail, "", k);
      assert lead + tail + "" == whole;
      assert 0 <= |lead| + k <= |whole|;
    }
  }

  /** The joined list names every shed appliance. */
  lemma JoinNamesListsEach(shed: seq<Appliance>, i: int)
    requires 0 <= i < |shed|
    ensures Occurs(Name(shed[i]), JoinNames(shed))
  {
    JoinListsEach(seq(|shed|, k requires 0 <= k < |shed| => Name(shed[k])), i);
  }

  /** The activation report names every appliance that was shed. */
  lemma MessageNamesEveryShed(shed: seq<Appliance>, i: int)
    requires 0 <= i < |shed|
    ensures Occurs(Name(shed[i]), Message(Activated(shed)))
  {
    JoinNamesListsEach(shed, i);
    OccursInMiddle(Name(shed[i]), ActivatedLead, JoinNames(shed), ActivatedTail);
  }
}
