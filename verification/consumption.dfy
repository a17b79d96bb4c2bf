/** Household consumption: the rated draw of every switched-on appliance,
    each scaled by an independent measurement-noise factor, summed and
    truncated to whole watts. */
module Consumption {
  import opened Numbers
  import opened Appliances

  /** Per-appliance noise factors are drawn from [0.9, 1.1]. */
  predicate FactorsInRange(factor: Appliance -> real) {
    forall a :: 9.0 / 10.0 <= factor(a) <= 11.0 / 10.0
  }

  /** What one appliance adds to the total: nothing when it is off. */
  function Contribution(reg: Registry, factor: Appliance -> real, a: Appliance): real {
    if reg[a].state == On then reg[a].ratedW as real * factor(a) else 0.0
  }

  /** The running total after visiting `order` from left to right. */
  function LoadOver(reg: Registry, factor: Appliance -> real, order: seq<Appliance>): real
    decreases |order|
  {
    if order == [] then 0.0
    else LoadOver(reg, factor, order[..|order| - 1]) + Contribution(reg, factor, order[|order| - 1])
  }

  /** An appliance's rated draw if it is on, 0 if it is off. */
  function RatedOn(reg: Registry, a: Appliance): nat {
    if reg[a].state == On then reg[a].ratedW else 0
  }

  /** Reference quantity: the summed rated draw of the switched-on appliances
      in `order`, with no noise. */
  function RatedOnOver(reg: Registry, order: seq<Appliance>): nat
    decreases |order|
  {
    if order == [] then 0
    else RatedOnOver(reg, order[..|order| - 1]) + RatedOn(reg, order[|order| - 1])
  }

  /** Every appliance listed in `order` is counted in the rated total. */
  lemma {:induction false} RatedOnOverCounts(reg: Registry, order: seq<Appliance>, i: int)
    requires 0 <= i < |order|
    ensures RatedOn(reg, order[i]) <= RatedOnOver(reg, order)
    decreases |order|
  {
    var prefix := order[..|order| - 1];
    if i < |order| - 1 {
      RatedOnOverCounts(reg, prefix, i);
      assert prefix[i] == order[i];
    }
  }

  /** A rated total of zero means nothing is drawing: only the listed
      appliances are summed, and they are summed without cancellation. */
  lemma {:induction false} RatedOnOverZeroIff(reg: Registry, order: seq<Appliance>)
    ensures RatedOnOver(reg, order) == 0 <==> forall i :: 0 <= i < |order| ==> RatedOn(reg, order[i]) == 0
    decreases |order|
  {
    if order != [] {
      var prefix := order[..|order| - 1];
      RatedOnOverZeroIff(reg, prefix);
      forall i | 0 <= i < |order| ensures RatedOnOver(reg, order) == 0 ==> RatedOn(reg, order[i]) == 0 {
        RatedOnOverCounts(reg, order, i);
      }
      assert forall i :: 0 <= i < |prefix| ==> prefix[i] == order[i];
    }
  }

  /** Over the whole catalog the rated total is zero exactly when every
      appliance is off or rated at 0 W. */
  lemma CatalogRatedZeroIff(reg: Registry)
    ensures RatedOnOver(reg, Catalog) == 0 <==> forall a :: RatedOn(reg, a) == 0
  {
    CatalogListsEveryApplianceOnce();
    RatedOnOverZeroIff(reg, Catalog);
    if RatedOnOver(reg, Catalog) == 0 {
      forall a ensures RatedOn(reg, a) == 0 {
        var i :| 0 <= i < |Catalog| && Catalog[i] == a;
      }
    }
  }

  /** One appliance's noisy draw lies within 10% of its rated draw. */
  lemma ContributionWithinTenPercent(reg: Registry, factor: Appliance -> real, a: Appliance)
    requires FactorsInRange(factor)
    ensures 9.0 / 10.0 * RatedOn(reg, a) as real <= Contribution(reg, factor, a)
    ensures Contribution(reg, factor, a) <= 11.0 / 10.0 * RatedOn(reg, a) as real
  {
    if reg[a].state == On {
      var w := reg[a].ratedW as real;
      var f := factor(a);
      MulNonNegative(w, f - 9.0 / 10.0);
      MulNonNegative(w, 11.0 / 10.0 - f);
    }
  }

  /** The noisy total lies within 10% of the rated total. */
  lemma {:induction false} LoadWithinTenPercent(reg: Registry, factor: Appliance -> real, order: seq<Appliance>)
    requires FactorsInRange(factor)
    ensures 9.0 / 10.0 * RatedOnOver(reg, order) as real <= LoadOver(reg, factor, order)
    ensures LoadOver(reg, factor, order) <= 11.0 / 10.0 * RatedOnOver(reg, order) as real
    decreases |order|
  {
    if order != [] {
      var prefix := order[..|order| - 1];
      var a := order[|order| - 1];
      LoadWithinTenPercent(reg, factor, prefix);
      ContributionWithinTenPercent(reg, factor, a);
      assert RatedOnOver(reg, order) as real == RatedOnOver(reg, prefix) as real + RatedOn(reg, a) as real;
      assert LoadOver(reg, factor, order) == LoadOver(reg, factor, prefix) + Contribution(reg, factor, a);
    }
  }

  /** Off appliances do not matter: two registries that agree on which
      appliances are on, and on their ratings and factors, give the same load. */
  lemma {:induction false} LoadIgnoresOffAppliances(reg: Registry, reg': Registry,
                                                     factor: Appliance -> real, factor': Appliance -> real,
                                                     order: seq<Appliance>)
    requires forall a :: (reg[a].state == On) == (reg'[a].state == On)
    requires forall a :: reg[a].state == On ==> reg[a].ratedW == reg'[a].ratedW && factor(a) == factor'(a)
    ensures LoadOver(reg, factor, order) == LoadOver(reg', factor', order)
  {
    if order != [] {
      LoadIgnoresOffAppliances(reg, reg', factor, factor', order[..|order| - 1]);
    }
  }

  /** Switching appliances off never raises the load: if every appliance on
      in `fewer` is also on in `more`, with the same rating, `fewer` draws no more. */
  lemma {:induction false} LoadMonotone(fewer: Registry, more: Registry, factor: Appliance -> real,
                                        order: seq<Appliance>)
    requires FactorsInRange(factor)
    requires forall a :: fewer[a].state == On ==> more[a].state == On && fewer[a].ratedW == more[a].ratedW
    ensures LoadOver(fewer, factor, order) <= LoadOver(more, factor, order)
  {
    if order != [] {
      LoadMonotone(fewer, more, factor, order[..|order| - 1]);
      var a := order[|order| - 1];
      if more[a].state == On {
        assert more[a].ratedW as real * factor(a) >= 0.0;
      }
    }
  }

  /** Total consumption in whole watts over the whole catalog. */
  function ConsumptionW(reg: Registry, factor: Appliance -> real): (w: int)
    requires FactorsInRange(factor)
    ensures w >= 0
    ensures w as real <= 11.0 / 10.0 * RatedOnOver(reg, Catalog) as real
    ensures 9.0 / 10.0 * RatedOnOver(reg, Catalog) as real < w as real + 1.0
    ensures (forall a :: reg[a].state == Off) ==> w == 0
    ensures (forall a :: RatedOn(reg, a) == 0) ==> w == 0
  {
    LoadWithinTenPercent(reg, factor, Catalog);
    AllOffRatesZero(reg, Catalog);
    CatalogRatedZeroIff(reg);
    Truncate(LoadOver(reg, factor, Catalog))
  }

  /** With everything off the rated total is zero. */
  lemma {:induction false} AllOffRatesZero(reg: Registry, order: seq<Appliance>)
    ensures (forall a :: reg[a].state == Off) ==> RatedOnOver(reg, order) == 0
  {
    if order != [] {
      AllOffRatesZero(reg, order[..|order| - 1]);
    }
  }

  /** The accumulation loop of `calcular_consumo_total`, one catalog entry at a time. */
  method TotalConsumption(reg: Registry, factor: Appliance -> real) returns (w: int)
    requires FactorsInRange(factor)
    ensures w == ConsumptionW(reg, factor)
  {
    var total := 0.0;
    var i := 0;
    while i < |Catalog|
      invariant 0 <= i <= |Catalog|
      invariant total == LoadOver(reg, factor, Catalog[..i])
    {
      var a := Catalog[i];
      assert Catalog[..i + 1][..i] == Catalog[..i];
      if reg[a].state == On {
        total := total + reg[a].ratedW as real * factor(a);
      }
      i := i + 1;
    }
    assert Catalog[..i] == Catalog;
    w := Truncate(total);
  }
}
