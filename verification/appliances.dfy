/** The appliance registry of the household: a fixed catalog of appliances,
    each with an on/off state and a rated power draw in watts. */
module Appliances {
  import opened Wrappers

  datatype Appliance = Geladeira | Chuveiro | ArCondicionado | LuzesSala

  /** An appliance is either "Ligado" (On) or "Desligado" (Off). */
  datatype Switch = On | Off

  datatype Device = Device(state: Switch, ratedW: nat)

  /** Every appliance value is one of the four catalog constructors; spelling
      out the constructor tests lets the verifier case-split on them. */
  predicate HasEveryAppliance(r: map<Appliance, Device>) {
    forall a: Appliance :: a.Geladeira? || a.Chuveiro? || a.ArCondicionado? || a.LuzesSala? ==> a in r
  }

  /** The registry has an entry for every catalog appliance, always: entries
      are created at start-up and never removed. */
  type Registry = r: map<Appliance, Device> | HasEveryAppliance(r)
    witness map[Geladeira := Device(On, 150), Chuveiro := Device(Off, 5000),
                ArCondicionado := Device(Off, 1200), LuzesSala := Device(Off, 80)]

  /** The catalog a freshly constructed household starts with. */
  const InitialRegistry: Registry :=
    map[Geladeira := Device(On, 150), Chuveiro := Device(Off, 5000),
        ArCondicionado := Device(Off, 1200), LuzesSala := Device(Off, 80)]

  /** The catalog in registry iteration order. */
  const Catalog: seq<Appliance> := [Geladeira, Chuveiro, ArCondicionado, LuzesSala]

  lemma CatalogListsEveryApplianceOnce()
    ensures forall a :: a in Catalog
    ensures forall i, j :: 0 <= i < j < |Catalog| ==> Catalog[i] != Catalog[j]
  {
    forall a: Appliance ensures a in Catalog {
      match a
      case Geladeira => assert Catalog[0] == a;
      case Chuveiro => assert Catalog[1] == a;
      case ArCondicionado => assert Catalog[2] == a;
      case LuzesSala => assert Catalog[3] == a;
    }
  }

  /** The registry key of an appliance. */
  function Name(a: Appliance): string {
    match a
    case Geladeira => "Geladeira"
    case Chuveiro => "Chuveiro"
    case ArCondicionado => "Ar Condicionado"
    case LuzesSala => "Luzes Sala"
  }

  /** The text of a switch state. */
  function Label(s: Switch): string {
    match s
    case On => "Ligado"
    case Off => "Desligado"
  }

  /** Registry key lookup: exact string match against the catalog names. */
  function ParseName(s: string): (r: Option<Appliance>)
    ensures r.Some? ==> Name(r.value) == s
    ensures r.None? ==> forall a :: Name(a) != s
  {
    if s == "Geladeira" then Some(Geladeira)
    else if s == "Chuveiro" then Some(Chuveiro)
    else if s == "Ar Condicionado" then Some(ArCondicionado)
    else if s == "Luzes Sala" then Some(LuzesSala)
    else None
  }

  /** State lookup: only the exact texts "Ligado" and "Desligado" are accepted. */
  function ParseSwitch(s: string): (r: Option<Switch>)
    ensures r.Some? ==> Label(r.value) == s
    ensures r.None? ==> forall sw :: Label(sw) != s
  {
    if s == "Ligado" then Some(On)
    else if s == "Desligado" then Some(Off)
    else None
  }

  /** Names and labels are read back exactly as written. */
  lemma ParseInvertsPrinting(a: Appliance, s: Switch)
    ensures ParseName(Name(a)) == Some(a)
    ensures ParseSwitch(Label(s)) == Some(s)
  {
  }

  /** The registry with appliance `a` switched to `s`, its rating untouched. */
  function Switched(reg: Registry, a: Appliance, s: Switch): (r: Registry)
    ensures r[a].state == s && r[a].ratedW == reg[a].ratedW
    ensures forall b :: b != a ==> r[b] == reg[b]
  {
    reg[a := reg[a].(state := s)]
  }

  datatype Control = Control(registry: Registry, accepted: bool, message: string)

  /** A manual toggle: validates the name and the state text, then changes
      the one appliance's state; otherwise reports an invalid request. */
  function SetState(reg: Registry, name: string, newState: string): (r: Control)
    ensures r.accepted <==> (exists a :: Name(a) == name) && (newState == "Ligado" || newState == "Desligado")
    ensures r.accepted ==> r.message == name + " alterado para " + newState + "."
    ensures r.accepted ==> forall a :: Name(a) == name ==> Label(r.registry[a].state) == newState
    ensures !r.accepted ==> r.registry == reg
    ensures !r.accepted ==> r.message == "Aparelho " + name + " ou estado " + newState + " inválido."
    ensures forall a :: Name(a) != name ==> r.registry[a] == reg[a]
    ensures forall a :: r.registry[a].ratedW == reg[a].ratedW
  {
    match (ParseName(name), ParseSwitch(newState))
    case (Some(a), Some(s)) =>
      Control(Switched(reg, a, s), true, name + " alterado para " + newState + ".")
    case _ =>
      Control(reg, false, "Aparelho " + name + " ou estado " + newState + " inválido.")
  }

  /** Setting a state and then setting back the appliance's original state
      restores the registry, whatever the first request was. */
  lemma SetStateRoundTrip(reg: Registry, a: Appliance, newState: string)
    ensures SetState(SetState(reg, Name(a), newState).registry, Name(a), Label(reg[a].state)).registry == reg
  {
    var first := SetState(reg, Name(a), newState).registry;
    var second := SetState(first, Name(a), Label(reg[a].state)).registry;
    assert second[a] == reg[a];
    assert forall b :: b != a ==> Name(b) != Name(a);
  }

  /** Repeating an accepted request changes nothing further. */
  lemma SetStateIdempotent(reg: Registry, name: string, newState: string)
    ensures SetState(SetState(reg, name, newState).registry, name, newState).registry
         == SetState(reg, name, newState).registry
  {
  }
}
