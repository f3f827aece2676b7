/** A solar plant (sunweg/plant.py): getter-only summary fields and an inverter
    list that the client extends after construction. */
module Plants {
  import opened Options
  import opened Util
  import opened Device

  /** The contents of a Plant object, its inverters read through. */
  datatype PlantValue = PlantValue(
    id: int,
    name: string,
    totalPower: real,
    kwhPerKwp: real,
    performanceRate: real,
    saving: real,
    todayEnergy: real,
    todayEnergyMetric: string,
    totalEnergy: real,
    totalCarbonSaving: real,
    lastUpdate: Option<DateTime>,
    inverters: seq<InverterValue>)

  /** Every object an inverter list reaches: the inverters and their MPPTs. */
  ghost function InvertersRepr(invs: seq<Inverter>): (r: set<object>)
    reads invs
  {
    if invs == [] then {}
    else
      var last := invs[|invs| - 1];
      InvertersRepr(invs[..|invs| - 1]) + {last} + (set m | m in last.mppts :: m as object)
  }

  /** The values of a list of Inverter objects, in list order. */
  function InverterViews(invs: seq<Inverter>): (vs: seq<InverterValue>)
    reads invs, InvertersRepr(invs)
    ensures |vs| == |invs|
  {
    if invs == [] then []
    else
      var last := invs[|invs| - 1];
      assert forall m :: m in last.mppts ==> m in InvertersRepr(invs);
      InverterViews(invs[..|invs| - 1]) + [last.View()]
  }

  /** A plant is never among the objects an inverter list reaches. */
  lemma {:induction false} PlantOutsideInverters(invs: seq<Inverter>, p: Plant)
    ensures p as object !in InvertersRepr(invs)
    decreases |invs|
  {
    if invs != [] {
      PlantOutsideInverters(invs[..|invs| - 1], p);
      var last := invs[|invs| - 1];
      assert p as object !in (set m | m in last.mppts :: m as object);
    }
  }

  /** Everything an inverter list reaches is already allocated, so a method
      that changes only older objects elsewhere leaves it alone. */
  lemma {:induction false} InvertersReprAllocated(invs: seq<Inverter>)
    ensures forall o :: o in InvertersRepr(invs) ==> allocated(o)
    decreases |invs|
  {
    if invs != [] {
      InvertersReprAllocated(invs[..|invs| - 1]);
    }
  }

  /** An object that is none of a list's inverters is outside what the list
      reaches, while those inverters have no MPPTs yet. */
  lemma {:induction false} OutsideStubs(invs: seq<Inverter>, o: object)
    requires forall k :: 0 <= k < |invs| ==> invs[k] != o && invs[k].mppts == []
    ensures o !in InvertersRepr(invs)
    decreases |invs|
  {
    if invs != [] {
      OutsideStubs(invs[..|invs| - 1], o);
    }
  }

  /** The views of a list are the views of its elements, in order. */
  lemma {:induction false} InverterViewsAre(invs: seq<Inverter>, vs: seq<InverterValue>)
    requires |invs| == |vs|
    requires forall k :: 0 <= k < |invs| ==> invs[k].View() == vs[k]
    ensures InverterViews(invs) == vs
    decreases |invs|
  {
    if invs != [] {
      InverterViewsAre(invs[..|invs| - 1], vs[..|vs| - 1]);
      assert vs == vs[..|vs| - 1] + [vs[|vs| - 1]];
    }
  }

  lemma {:induction false} InverterViewsAppend(a: seq<Inverter>, b: seq<Inverter>)
    ensures InverterViews(a + b) == InverterViews(a) + InverterViews(b)
    decreases |b|
  {
    if b == [] {
      assert a + b == a;
    } else {
      var init := b[..|b| - 1];
      InverterViewsAppend(a, init);
      assert (a + b)[..|a + b| - 1] == a + init;
    }
  }

  class Plant {
    const id: int
    const name: string
    const totalPower: real
    /** Deprecated: the vendor no longer reports it; the getter returns what was stored. */
    const kwhPerKwp: real
    /** Deprecated: the vendor no longer reports it; the getter returns what was stored. */
    const performanceRate: real
    const saving: real
    const todayEnergy: real
    const todayEnergyMetric: string
    const totalEnergy: real
    const totalCarbonSaving: real
    const lastUpdate: Option<DateTime>
    var inverters: seq<Inverter>

    /** Every getter returns its constructor argument; the inverter list starts empty. */
    constructor (
      id: int, name: string, totalPower: real, kwhPerKwp: real, performanceRate: real,
      saving: real, todayEnergy: real, todayEnergyMetric: string, totalEnergy: real,
      totalCarbonSaving: real, lastUpdate: Option<DateTime>)
      ensures inverters == []
      ensures View() == PlantValue(
                id, name, totalPower, kwhPerKwp, performanceRate, saving, todayEnergy,
                todayEnergyMetric, totalEnergy, totalCarbonSaving, lastUpdate, [])
    {
      this.id, this.name, this.totalPower := id, name, totalPower;
      this.kwhPerKwp, this.performanceRate, this.saving := kwhPerKwp, performanceRate, saving;
      this.todayEnergy, this.todayEnergyMetric, this.totalEnergy := todayEnergy, todayEnergyMetric, totalEnergy;
      this.totalCarbonSaving, this.lastUpdate := totalCarbonSaving, lastUpdate;
      this.inverters := [];
    }

    ghost function Repr(): set<object>
      reads this, inverters
    {
      {this} + InvertersRepr(inverters)
    }

    function View(): PlantValue
      reads this, inverters, Repr()
    {
      PlantValue(
        id, name, totalPower, kwhPerKwp, performanceRate, saving, todayEnergy,
        todayEnergyMetric, totalEnergy, totalCarbonSaving, lastUpdate, InverterViews(inverters))
    }

    /** `plant.inverters.extend(invs)`: the only change a plant ever sees. */
    method ExtendInverters(invs: seq<Inverter>)
      modifies this
      ensures inverters == old(inverters) + invs
      ensures View() == old(View()).(inverters := old(View()).inverters + old(InverterViews(invs)))
    {
      ghost var before := inverters;
      ghost var oldViews := InverterViews(inverters);
      PlantOutsideInverters(before, this);
      PlantOutsideInverters(invs, this);
      inverters := inverters + invs;
      assert InverterViews(before) == oldViews;
      InverterViewsAppend(before, invs);
    }
  }
}
