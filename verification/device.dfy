/**
 * The devices of a plant (sunweg/device.py): the getter-only String and Phase
 * records, and the Inverter and MPPT objects whose lists and detail fields the
 * client fills in place.
 */
module Device {
  import opened Util

  /** A series of panels feeding one MPPT input: DC voltage (V), amperage (A). */
  datatype String = String(name: string, voltage: real, amperage: real, status: Status)

  /** One AC output phase, with one status per measured quantity. */
  datatype Phase = Phase(
    name: string,
    voltage: real,
    amperage: real,
    statusVoltage: Status,
    statusAmperage: Status)

  /** The contents of an MPPT object. */
  datatype MpptValue = MpptValue(name: string, strings: seq<String>)

  /** The contents of an Inverter object, its MPPTs read through to their strings. */
  datatype InverterValue = InverterValue(
    id: int,
    name: string,
    sn: string,
    status: Status,
    temperature: int,
    totalEnergy: real,
    totalEnergyMetric: string,
    todayEnergy: real,
    todayEnergyMetric: string,
    powerFactor: real,
    frequency: real,
    power: real,
    powerMetric: string,
    phases: seq<Phase>,
    mppts: seq<MpptValue>)
  {
    predicate IsComplete()
    {
      HasDetail(todayEnergy, totalEnergy, powerFactor, frequency, power)
    }

    /** Built from the five summary fields only, everything else at its default. */
    predicate IsStub()
    {
      this == StubValue(id, name, sn, status, temperature)
    }

    /** The five fields a detail fetch never touches. */
    predicate SameIdentity(other: InverterValue)
    {
      id == other.id && name == other.name && sn == other.sn
      && status == other.status && temperature == other.temperature
    }
  }

  /** `is_complete`: an inverter holds detail data once any of the five detail
      readings is non-zero. */
  predicate HasDetail(todayEnergy: real, totalEnergy: real, powerFactor: real, frequency: real, power: real)
  {
    todayEnergy != 0.0 || totalEnergy != 0.0 || powerFactor != 0.0 || frequency != 0.0 || power != 0.0
  }

  /** The value of an inverter built from the five summary fields only, as the
      plant detail builds its inverter list. */
  function StubValue(id: int, name: string, sn: string, status: Status, temperature: int): (v: InverterValue)
    ensures !v.IsComplete()
    ensures v.phases == [] && v.mppts == []
    ensures v.totalEnergyMetric == "" && v.todayEnergyMetric == "" && v.powerMetric == ""
  {
    InverterValue(id, name, sn, status, temperature, 0.0, "", 0.0, "", 0.0, 0.0, 0.0, "", [], [])
  }

  /** A stub becomes complete as soon as any one detail reading is set non-zero. */
  lemma AnyDetailCompletes(v: InverterValue, x: real)
    requires x != 0.0
    ensures v.(todayEnergy := x).IsComplete() && v.(totalEnergy := x).IsComplete()
    ensures v.(powerFactor := x).IsComplete() && v.(frequency := x).IsComplete()
    ensures v.(power := x).IsComplete()
  {
  }

  /** Maximum-power-point tracker: a name fixed at creation and a list of strings
      that only grows. */
  class MPPT {
    const name: string
    var strings: seq<String>

    constructor (name: string)
      ensures this.name == name && strings == []
    {
      this.name := name;
      strings := [];
    }

    /** `mppt.strings.append(s)`. */
    method AppendString(s: String)
      modifies this
      ensures strings == old(strings) + [s]
    {
      strings := strings + [s];
    }

    function View(): (v: MpptValue)
      reads this
      ensures v.name == name && v.strings == strings
    {
      MpptValue(name, strings)
    }
  }

  /** The values of a list of MPPT objects, in list order. */
  function MpptViews(ms: seq<MPPT>): (vs: seq<MpptValue>)
    reads ms
    ensures |vs| == |ms|
  {
    if ms == [] then [] else MpptViews(ms[..|ms| - 1]) + [ms[|ms| - 1].View()]
  }

  /** Each value is the view of the MPPT object in the same place. */
  lemma {:induction false} MpptViewsAt(ms: seq<MPPT>)
    ensures forall k :: 0 <= k < |ms| ==> MpptViews(ms)[k] == ms[k].View()
    decreases |ms|
  {
    if ms != [] {
      MpptViewsAt(ms[..|ms| - 1]);
    }
  }

  /** An inverter. Identity and summary fields are fixed at construction; the
      detail readings have setters; the phase and MPPT lists only grow. */
  class Inverter {
    const id: int
    const name: string
    const sn: string
    const status: Status
    const temperature: int
    var totalEnergy: real
    var totalEnergyMetric: string
    var todayEnergy: real
    var todayEnergyMetric: string
    var powerFactor: real
    var frequency: real
    var power: real
    var powerMetric: string
    var phases: seq<Phase>
    var mppts: seq<MPPT>

    /** Every detail reading defaults to zero and every unit to the empty text. */
    constructor (
      id: int, name: string, sn: string, status: Status, temperature: int,
      totalEnergy: real := 0.0, totalEnergyMetric: string := "",
      todayEnergy: real := 0.0, todayEnergyMetric: string := "",
      powerFactor: real := 0.0, frequency: real := 0.0,
      power: real := 0.0, powerMetric: string := "")
      ensures View() == InverterValue(
                id, name, sn, status, temperature, totalEnergy, totalEnergyMetric,
                todayEnergy, todayEnergyMetric, powerFactor, frequency, power, powerMetric, [], [])
      ensures this.phases == [] && this.mppts == []
      ensures IsComplete() <==> HasDetail(todayEnergy, totalEnergy, powerFactor, frequency, power)
    {
      this.id, this.name, this.sn, this.status, this.temperature := id, name, sn, status, temperature;
      this.totalEnergy, this.totalEnergyMetric := totalEnergy, totalEnergyMetric;
      this.todayEnergy, this.todayEnergyMetric := todayEnergy, todayEnergyMetric;
      this.powerFactor, this.frequency := powerFactor, frequency;
      this.power, this.powerMetric := power, powerMetric;
      this.phases, this.mppts := [], [];
    }

    function View(): (v: InverterValue)
      reads this, mppts
      ensures v.IsComplete() == IsComplete()
    {
      InverterValue(
        id, name, sn, status, temperature, totalEnergy, totalEnergyMetric,
        todayEnergy, todayEnergyMetric, powerFactor, frequency, power, powerMetric,
        phases, MpptViews(mppts))
    }

    predicate IsComplete()
      reads this
    {
      HasDetail(todayEnergy, totalEnergy, powerFactor, frequency, power)
    }

    method SetTodayEnergy(value: real)
      modifies this
      ensures View() == old(View()).(todayEnergy := value)
      ensures mppts == old(mppts)
    {
      todayEnergy := value;
    }

    method SetTotalEnergy(value: real)
      modifies this
      ensures View() == old(View()).(totalEnergy := value)
      ensures mppts == old(mppts)
    {
      totalEnergy := value;
    }

    method SetPowerFactor(value: real)
      modifies this
      ensures View() == old(View()).(powerFactor := value)
      ensures mppts == old(mppts)
    {
      powerFactor := value;
    }

    method SetFrequency(value: real)
      modifies this
      ensures View() == old(View()).(frequency := value)
      ensures mppts == old(mppts)
    {
      frequency := value;
    }

    method SetPower(value: real)
      modifies this
      ensures View() == old(View()).(power := value)
      ensures mppts == old(mppts)
    {
      power := value;
    }

    /** `inverter.phases.append(p)`. */
    method AppendPhase(p: Phase)
      modifies this
      ensures View() == old(View()).(phases := old(phases) + [p])
      ensures mppts == old(mppts)
    {
      phases := phases + [p];
    }

    /** `inverter.mppts.append(m)`. */
    method AppendMppt(m: MPPT)
      modifies this
      ensures mppts == old(mppts) + [m]
      ensures View() == old(View()).(mppts := old(View()).mppts + [m.View()])
    {
      mppts := mppts + [m];
      assert mppts[..|mppts| - 1] == old(mppts);
    }
  }
}
