/**
 * The response translators of the API client (sunweg/api.py): how a decoded
 * payload becomes plant, inverter, MPPT, string, phase and production-stats
 * values. Each translator reads the payload members in the order the client
 * does, so the first unreadable member decides the failure.
 */
module Translate {
  import opened Options
  import opened Text
  import opened Json
  import opened Util
  import opened Device
  import opened Plants
  import opened Api

  /** The date-time parser the client relies on; None where it raises. */
  type DateParser = string -> Option<DateTime>

  function ParseDateTime(parseDate: DateParser, j: Json): (r: Outcome<DateTime>)
    ensures r.Fail? ==> r.error.Malformed?
    ensures r.Ok? ==> j.JStr? && parseDate(j.s) == Some(r.value)
  {
    var text :- AsText(j);
    match parseDate(text)
    case Some(dt) => Ok(dt)
    case None => Fail(Malformed(BadDate(text)))
  }

  /** `separate_value_metric(result[key], default, before)`. */
  function ReadValueMetric(result: Json, key: string, defaultMetric: string := "", metricBefore: bool := false)
    : (r: Outcome<(real, string)>)
    ensures r.Fail? ==> r.error.Malformed?
  {
    var raw :- Get(result, key);
    var text :- AsOptionalText(raw);
    SeparateValueMetric(text, defaultMetric, metricBefore)
  }

  /** `Status(int(x))`: the direct ordinal construction. */
  function StatusOfOrdinal(j: Json): (r: Outcome<Status>)
    ensures r.Fail? ==> r.error.Malformed?
    ensures r.Ok? ==> exists n :: Int(j) == Ok(n) && FromOrdinal(n) == Some(r.value)
  {
    var n :- Int(j);
    match FromOrdinal(n)
    case Some(s) => Ok(s)
    case None => Fail(Malformed(BadStatus(j)))
  }

  // ---------------------------------------------------------------------------
  // Plant detail

  /** One entry of the plant's embedded inverter list, as an inverter stub. */
  function DecodeStub(inv: Json): (r: Outcome<InverterValue>)
    ensures r.Fail? ==> r.error.Malformed?
    ensures r.Ok? ==> r.value.IsStub() && !r.value.IsComplete()
    ensures r.Ok? ==> Get(inv, "situacao").Ok? && StatusOfOrdinal(Get(inv, "situacao").value) == Ok(r.value.status)
    ensures r.Ok? ==> Get(inv, "id") == Ok(JInt(r.value.id)) && Get(inv, "nome") == Ok(JStr(r.value.name))
                      && Get(inv, "esn") == Ok(JStr(r.value.sn)) && Get(inv, "temperatura") == Ok(JInt(r.value.temperature))
    ensures Get(inv, "id").Ok? && Get(inv, "id").value.JInt? && Get(inv, "nome").Ok? && Get(inv, "nome").value.JStr?
            && Get(inv, "esn").Ok? && Get(inv, "esn").value.JStr? && Get(inv, "situacao").Ok?
            && StatusOfOrdinal(Get(inv, "situacao").value).Ok?
            && Get(inv, "temperatura").Ok? && Get(inv, "temperatura").value.JInt?
            ==> r.Ok?
  {
    var id :- Get(inv, "id");
    var id :- AsInteger(id);
    var name :- Get(inv, "nome");
    var name :- AsText(name);
    var sn :- Get(inv, "esn");
    var sn :- AsText(sn);
    var situation :- Get(inv, "situacao");
    var status :- StatusOfOrdinal(situation);
    var temperature :- Get(inv, "temperatura");
    var temperature :- AsInteger(temperature);
    Ok(StubValue(id, name, sn, status, temperature))
  }

  /** The embedded inverter list, in payload order; the first bad entry fails it. */
  function DecodeStubs(items: seq<Json>): (r: Outcome<seq<InverterValue>>)
    ensures r.Fail? ==> r.error.Malformed?
    ensures r.Ok? ==> |r.value| == |items|
    ensures r.Ok? ==> forall k :: 0 <= k < |items| ==> DecodeStub(items[k]) == Ok(r.value[k])
    ensures r.Fail? ==> exists k :: 0 <= k < |items| && DecodeStub(items[k]) == Fail(r.error)
    decreases |items|
  {
    if items == [] then Ok([])
    else
      var init :- DecodeStubs(items[..|items| - 1]);
      var last :- DecodeStub(items[|items| - 1]);
      Ok(init + [last])
  }

  /** The plant detail payload as a Plant with its inverter stubs. */
  function DecodePlant(parseDate: DateParser, id: int, result: Json): (r: Outcome<PlantValue>)
    ensures r.Fail? ==> r.error.Malformed?
    ensures r.Ok? ==> r.value.id == id
    ensures r.Ok? ==> r.value.kwhPerKwp == 0.0 && r.value.performanceRate == 0.0
    ensures r.Ok? ==> (r.value.lastUpdate.None? <==> Get(result, "ultimaAtualizacao") == Ok(JNull))
    ensures r.Ok? ==> forall k :: 0 <= k < |r.value.inverters| ==> r.value.inverters[k].IsStub() && !r.value.inverters[k].IsComplete()
    ensures r.Ok? ==> Get2(result, "usinas", "inversores").Ok?
                      && Items(Get2(result, "usinas", "inversores").value).Ok?
                      && DecodeStubs(Items(Get2(result, "usinas", "inversores").value).value) == Ok(r.value.inverters)
    ensures r.Ok? ==> Get2(result, "usinas", "nome") == Ok(JStr(r.value.name))
    ensures r.Ok? ==> ReadValueMetric(result, "energiadia", "kWh") == Ok((r.value.todayEnergy, r.value.todayEnergyMetric))
    ensures r.Ok? ==> ReadValueMetric(result, "AcumuladoPotencia").Ok?
                      && ReadValueMetric(result, "AcumuladoPotencia").value.0 == r.value.totalPower
    ensures r.Ok? ==> ReadValueMetric(result, "economia", "", true).Ok?
                      && ReadValueMetric(result, "economia", "", true).value.0 == r.value.saving
    ensures r.Ok? ==> Get(result, "energiaacumuladanumber").Ok?
                      && Float(Get(result, "energiaacumuladanumber").value) == Ok(r.value.totalEnergy)
    ensures r.Ok? ==> Get(result, "reduz_carbono_total_number").Ok?
                      && AsNumber(Get(result, "reduz_carbono_total_number").value) == Ok(r.value.totalCarbonSaving)
    ensures r.Ok? && r.value.lastUpdate.Some? ==>
              Get(result, "ultimaAtualizacao").Ok?
              && ParseDateTime(parseDate, Get(result, "ultimaAtualizacao").value) == Ok(r.value.lastUpdate.value)
  {
    var (todayEnergy, todayEnergyMetric) :- ReadValueMetric(result, "energiadia", "kWh");
    var (totalPower, _) :- ReadValueMetric(result, "AcumuladoPotencia");
    var (saving, _) :- ReadValueMetric(result, "economia", metricBefore := true);
    var name :- Get2(result, "usinas", "nome");
    var name :- AsText(name);
    var totalEnergy :- Get(result, "energiaacumuladanumber");
    var totalEnergy :- Float(totalEnergy);
    var carbon :- Get(result, "reduz_carbono_total_number");
    var carbon :- AsNumber(carbon);
    var lastRaw :- Get(result, "ultimaAtualizacao");
    var lastUpdate :- if lastRaw.JNull? then Ok(None) else
                       var dt :- ParseDateTime(parseDate, lastRaw); Ok(Some(dt));
    var listed :- Get2(result, "usinas", "inversores");
    var items :- Items(listed);
    var stubs :- DecodeStubs(items);
    Ok(PlantValue(id, name, totalPower, 0.0, 0.0, saving, todayEnergy, todayEnergyMetric,
                  totalEnergy, carbon, lastUpdate, stubs))
  }

  // ---------------------------------------------------------------------------
  // MPPTs and strings

  /** A reading referenced by a variable name: `result["inversor"]["leitura"][name]`. */
  function Reading(result: Json, entry: Json, variableKey: string): (r: Outcome<real>)
    ensures r.Fail? ==> r.error.Malformed?
  {
    var readings :- Get2(result, "inversor", "leitura");
    var variable :- Get(entry, variableKey);
    var variable :- AsText(variable);
    var raw :- Get(readings, variable);
    Float(raw)
  }

  /** One string entry of an MPPT group; its status uses the situation mapping. */
  function DecodeString(result: Json, entry: Json): (r: Outcome<String>)
    ensures r.Fail? ==> r.error.Malformed?
    ensures r.Ok? ==> Get(entry, "situacao").Ok? && Int(Get(entry, "situacao").value).Ok?
                      && r.value.status == ConvertSituationStatus(Int(Get(entry, "situacao").value).value)
    ensures r.Ok? ==> Get(entry, "nome") == Ok(JStr(r.value.name))
                      && Reading(result, entry, "variaveltensao") == Ok(r.value.voltage)
                      && Reading(result, entry, "variavelcorrente") == Ok(r.value.amperage)
  {
    var name :- Get(entry, "nome");
    var name :- AsText(name);
    var voltage :- Reading(result, entry, "variaveltensao");
    var amperage :- Reading(result, entry, "variavelcorrente");
    var situation :- Get(entry, "situacao");
    var situation :- Int(situation);
    Ok(String(name, voltage, amperage, ConvertSituationStatus(situation)))
  }

  /** The string loop of one group: one string per entry until an entry fails. */
  function StringsRun(result: Json, entries: seq<Json>): (r: Run<String>)
    ensures |r.done| <= |entries|
    ensures r.failure.None? ==> |r.done| == |entries|
    ensures r.failure.Some? ==> |r.done| < |entries| && r.failure.value.Malformed?
  {
    RunOfDecodes(e => DecodeString(result, e), entries);
    RunOf(e => DecodeString(result, e), entries)
  }

  /** Each string of the run decodes from its entry; the failure is the next entry's. */
  lemma StringsRunDecodes(result: Json, entries: seq<Json>)
    ensures var r := StringsRun(result, entries);
            (forall k :: 0 <= k < |r.done| ==> DecodeString(result, entries[k]) == Ok(r.done[k]))
            && (r.failure.Some? ==> DecodeString(result, entries[|r.done|]) == Fail(r.failure.value))
  {
    RunOfDecodes(e => DecodeString(result, e), entries);
  }

  /** The strings of one group, in payload order; the first bad entry fails them all. */
  function DecodeStrings(result: Json, entries: seq<Json>): (r: Outcome<seq<String>>)
    ensures r.Fail? ==> r.error.Malformed?
    ensures r.Ok? ==> |r.value| == |entries|
    ensures r.Ok? ==> forall k :: 0 <= k < |entries| ==> DecodeString(result, entries[k]) == Ok(r.value[k])
  {
    StringsRunDecodes(result, entries);
    var run := StringsRun(result, entries);
    if run.failure.Some? then Fail(run.failure.value) else Ok(run.done)
  }

  /** The `strings` list of an MPPT group. */
  function GroupEntries(group: Json): (r: Outcome<seq<Json>>)
    ensures r.Fail? ==> r.error.Malformed?
  {
    var entries :- Get(group, "strings");
    Items(entries)
  }

  /** One `stringmppt` group as an MPPT named after the group, with one string per entry. */
  function DecodeGroup(result: Json, group: Json): (r: Outcome<MpptValue>)
    ensures r.Fail? ==> r.error.Malformed?
    ensures r.Ok? ==> GroupEntries(group).Ok? && |r.value.strings| == |GroupEntries(group).value|
    ensures r.Ok? ==> DecodeStrings(result, GroupEntries(group).value) == Ok(r.value.strings)
    ensures r.Ok? ==> Get(group, "nomemppt") == Ok(JStr(r.value.name))
  {
    var name :- Get(group, "nomemppt");
    var name :- AsText(name);
    var entries :- GroupEntries(group);
    var strings :- DecodeStrings(result, entries);
    Ok(MpptValue(name, strings))
  }

  /** Items decoded in order until the first failure, and that failure if any:
      what a loop that appends as it goes leaves behind when it raises. */
  datatype Run<T> = Run(done: seq<T>, failure: Option<Failure>)

  /** The run of a decoder over a list: the longest prefix it decodes, and the
      failure of the item after it. */
  function RunOf<A, B>(decode: A -> Outcome<B>, xs: seq<A>): (r: Run<B>)
    ensures |r.done| <= |xs|
    ensures r.failure.None? ==> |r.done| == |xs|
    ensures r.failure.Some? ==> |r.done| < |xs|
    decreases |xs|
  {
    if xs == [] then Run([], None)
    else
      var r := RunOf(decode, xs[..|xs| - 1]);
      if r.failure.Some? then r
      else match decode(xs[|xs| - 1])
        case Ok(b) => Run(r.done + [b], None)
        case Fail(e) => Run(r.done, Some(e))
  }

  /** Each item of a run is what the decoder makes of the matching input, and
      the failure, if any, is the decoder's on the input after them. */
  lemma {:induction false} RunOfDecodes<A, B>(decode: A -> Outcome<B>, xs: seq<A>)
    ensures var r := RunOf(decode, xs);
            (forall k :: 0 <= k < |r.done| ==> decode(xs[k]) == Ok(r.done[k]))
            && (r.failure.Some? ==> decode(xs[|r.done|]) == Fail(r.failure.value))
    decreases |xs|
  {
    if xs != [] {
      var init := xs[..|xs| - 1];
      RunOfDecodes(decode, init);
      assert forall k :: 0 <= k < |init| ==> xs[k] == init[k];
    }
  }

  /** One more item decoded extends the run, as long as nothing failed yet. */
  lemma RunOfSnoc<A, B>(decode: A -> Outcome<B>, xs: seq<A>, x: A)
    requires RunOf(decode, xs).failure.None?
    ensures RunOf(decode, xs + [x])
         == if decode(x).Ok? then Run(RunOf(decode, xs).done + [decode(x).value], None)
            else Run(RunOf(decode, xs).done, Some(decode(x).error))
  {
    assert (xs + [x])[..|xs|] == xs;
  }

  /** The MPPT loop: one MPPT per group until a group fails. */
  function MpptRun(result: Json, groups: seq<Json>): (r: Run<MpptValue>)
    ensures |r.done| <= |groups|
    ensures r.failure.None? ==> |r.done| == |groups|
    ensures r.failure.Some? ==> |r.done| < |groups| && r.failure.value.Malformed?
  {
    RunOfDecodes(g => DecodeGroup(result, g), groups);
    RunOf(g => DecodeGroup(result, g), groups)
  }

  /** Each MPPT of the run decodes from its group; the failure is the next group's. */
  lemma MpptRunDecodes(result: Json, groups: seq<Json>)
    ensures var r := MpptRun(result, groups);
            (forall k :: 0 <= k < |r.done| ==> DecodeGroup(result, groups[k]) == Ok(r.done[k]))
            && (r.failure.Some? ==> DecodeGroup(result, groups[|r.done|]) == Fail(r.failure.value))
  {
    RunOfDecodes(g => DecodeGroup(result, g), groups);
  }

  /** A failure ends a run: nothing after it is decoded. */
  lemma {:induction false} RunOfStops<A, B>(decode: A -> Outcome<B>, xs: seq<A>, ys: seq<A>)
    requires RunOf(decode, xs).failure.Some?
    ensures RunOf(decode, xs + ys) == RunOf(decode, xs)
    decreases |ys|
  {
    if ys != [] {
      var init := ys[..|ys| - 1];
      RunOfStops(decode, xs, init);
      var all := xs + ys;
      assert all[..|all| - 1] == xs + init;
      assert RunOf(decode, all[..|all| - 1]).failure.Some?;
    } else {
      assert xs + ys == xs;
    }
  }

  /** The run over a list, one index further: the next item extends the run,
      or its failure is where the whole run stops. */
  lemma RunOfNext<A, B>(decode: A -> Outcome<B>, xs: seq<A>, j: nat)
    requires j < |xs|
    requires RunOf(decode, xs[..j]).failure.None?
    ensures decode(xs[j]).Ok? ==> RunOf(decode, xs[..j + 1]) == Run(RunOf(decode, xs[..j]).done + [decode(xs[j]).value], None)
    ensures decode(xs[j]).Fail? ==> RunOf(decode, xs) == Run(RunOf(decode, xs[..j]).done, Some(decode(xs[j]).error))
  {
    TakeOneMore(xs, j);
    RunOfSnoc(decode, xs[..j], xs[j]);
    if decode(xs[j]).Fail? {
      RunOfStops(decode, xs[..j + 1], xs[j + 1..]);
    }
  }

  /** A prefix one longer is the prefix and the next item, and it and the rest
      make up the list. */
  lemma TakeOneMore<A>(xs: seq<A>, j: nat)
    requires j < |xs|
    ensures xs[..j + 1] == xs[..j] + [xs[j]]
    ensures xs[..j + 1] + xs[j + 1..] == xs
  {
  }

  lemma MpptRunSnoc(result: Json, groups: seq<Json>, g: Json)
    requires MpptRun(result, groups).failure.None?
    ensures MpptRun(result, groups + [g])
         == if DecodeGroup(result, g).Ok? then Run(MpptRun(result, groups).done + [DecodeGroup(result, g).value], None)
            else Run(MpptRun(result, groups).done, Some(DecodeGroup(result, g).error))
  {
    RunOfSnoc(g => DecodeGroup(result, g), groups, g);
  }

  // ---------------------------------------------------------------------------
  // Phases

  /** The keys of the per-phase current map that name a phase: every key not
      ending in "status" (those are the sibling status flags). */
  function PhaseNames(keys: seq<string>): (names: seq<string>)
    ensures |names| <= |keys|
    decreases |keys|
  {
    if keys == [] then []
    else
      var init := PhaseNames(keys[..|keys| - 1]);
      var key := keys[|keys| - 1];
      if EndsWith(key, "status") then init else init + [key]
  }

  /** The phase names are exactly the keys that do not end in "status". */
  lemma {:induction false} PhaseNamesMembers(keys: seq<string>)
    ensures forall n :: n in PhaseNames(keys) <==> n in keys && !EndsWith(n, "status")
    decreases |keys|
  {
    if keys != [] {
      PhaseNamesMembers(keys[..|keys| - 1]);
      assert keys == keys[..|keys| - 1] + [keys[|keys| - 1]];
    }
  }

  /** One phase: comma-decimal voltage and current, and two independent
      statuses cast directly from the `<name>status` siblings. */
  function DecodePhase(result: Json, name: string): (r: Outcome<Phase>)
    ensures r.Fail? ==> r.error.Malformed?
    ensures r.Ok? ==> r.value.name == name
    ensures r.Ok? ==> Get2(result, "tensaoca", name + "status").Ok?
                      && StatusOfJson(Get2(result, "tensaoca", name + "status").value) == Ok(r.value.statusVoltage)
    ensures r.Ok? ==> Get2(result, "correnteCA", name + "status").Ok?
                      && StatusOfJson(Get2(result, "correnteCA", name + "status").value) == Ok(r.value.statusAmperage)
  {
    var voltage :- Get2(result, "tensaoca", name);
    var voltage :- CommaFloat(voltage);
    var amperage :- Get2(result, "correnteCA", name);
    var amperage :- CommaFloat(amperage);
    var statusVoltage :- Get2(result, "tensaoca", name + "status");
    var statusVoltage :- StatusOfJson(statusVoltage);
    var statusAmperage :- Get2(result, "correnteCA", name + "status");
    var statusAmperage :- StatusOfJson(statusAmperage);
    Ok(Phase(name, voltage, amperage, statusVoltage, statusAmperage))
  }

  /** Phase names of consecutive key lists concatenate. */
  lemma {:induction false} PhaseNamesAppend(a: seq<string>, b: seq<string>)
    ensures PhaseNames(a + b) == PhaseNames(a) + PhaseNames(b)
    decreases |b|
  {
    if b == [] {
      assert a + b == a;
    } else {
      var init, key := b[..|b| - 1], b[|b| - 1];
      var ab := a + b;
      PhaseNamesAppend(a, init);
      assert ab[..|ab| - 1] == a + init;
      assert ab[|ab| - 1] == key;
      var tail := if EndsWith(key, "status") then [] else [key];
      assert PhaseNames(ab) == PhaseNames(a + init) + tail;
      assert PhaseNames(b) == PhaseNames(init) + tail;
      assert PhaseNames(a) + PhaseNames(init) + tail == PhaseNames(a) + (PhaseNames(init) + tail);
    }
  }

  /** The phase loop over the keys: status keys are skipped, every other key
      becomes a phase, until a phase fails. */
  function PhaseRun(result: Json, keys: seq<string>): (r: Run<Phase>)
    ensures |r.done| <= |PhaseNames(keys)|
    ensures r.failure.None? ==> |r.done| == |PhaseNames(keys)|
    ensures r.failure.Some? ==> |r.done| < |PhaseNames(keys)| && r.failure.value.Malformed?
  {
    RunOfDecodes(n => DecodePhase(result, n), PhaseNames(keys));
    RunOf(n => DecodePhase(result, n), PhaseNames(keys))
  }

  /** Each phase of the run decodes from its phase name; the failure is the
      next name's. */
  lemma PhaseRunDecodes(result: Json, keys: seq<string>)
    ensures var r := PhaseRun(result, keys);
            (forall k :: 0 <= k < |r.done| ==> DecodePhase(result, PhaseNames(keys)[k]) == Ok(r.done[k]))
            && (r.failure.Some? ==> DecodePhase(result, PhaseNames(keys)[|r.done|]) == Fail(r.failure.value))
  {
    RunOfDecodes(n => DecodePhase(result, n), PhaseNames(keys));
  }

  lemma MpptRunStops(result: Json, groups: seq<Json>, rest: seq<Json>)
    requires MpptRun(result, groups).failure.Some?
    ensures MpptRun(result, groups + rest) == MpptRun(result, groups)
  {
    RunOfStops(g => DecodeGroup(result, g), groups, rest);
  }

  lemma StringsRunSnoc(result: Json, entries: seq<Json>, e: Json)
    requires StringsRun(result, entries).failure.None?
    ensures StringsRun(result, entries + [e])
         == if DecodeString(result, e).Ok? then Run(StringsRun(result, entries).done + [DecodeString(result, e).value], None)
            else Run(StringsRun(result, entries).done, Some(DecodeString(result, e).error))
  {
    RunOfSnoc(e => DecodeString(result, e), entries, e);
  }

  lemma StringsRunStops(result: Json, entries: seq<Json>, rest: seq<Json>)
    requires StringsRun(result, entries).failure.Some?
    ensures StringsRun(result, entries + rest) == StringsRun(result, entries)
  {
    RunOfStops(e => DecodeString(result, e), entries, rest);
  }

  /** A status key leaves the phase run as it is; any other key decodes one
      more phase. */
  lemma PhaseRunSnoc(result: Json, keys: seq<string>, key: string)
    requires PhaseRun(result, keys).failure.None?
    ensures EndsWith(key, "status") ==> PhaseRun(result, keys + [key]) == PhaseRun(result, keys)
    ensures !EndsWith(key, "status") ==>
              PhaseRun(result, keys + [key])
              == if DecodePhase(result, key).Ok? then Run(PhaseRun(result, keys).done + [DecodePhase(result, key).value], None)
                 else Run(PhaseRun(result, keys).done, Some(DecodePhase(result, key).error))
  {
    PhaseNamesAppend(keys, [key]);
    assert [key][..0] == [];
    if EndsWith(key, "status") {
      assert PhaseNames(keys + [key]) == PhaseNames(keys);
    } else {
      assert PhaseNames(keys + [key]) == PhaseNames(keys) + [key];
      RunOfSnoc(n => DecodePhase(result, n), PhaseNames(keys), key);
    }
  }

  lemma PhaseRunStops(result: Json, keys: seq<string>, rest: seq<string>)
    requires PhaseRun(result, keys).failure.Some?
    ensures PhaseRun(result, keys + rest) == PhaseRun(result, keys)
  {
    PhaseNamesAppend(keys, rest);
    RunOfStops(n => DecodePhase(result, n), PhaseNames(keys), PhaseNames(rest));
  }

  // ---------------------------------------------------------------------------
  // _populate_MPPT

  /** What `_populate_MPPT` appends: the MPPTs, then the phases, and the failure
      that stopped it, if any. A failure in the MPPT loop appends no phase. */
  datatype Population = Population(mppts: seq<MpptValue>, phases: seq<Phase>, failure: Option<Failure>)

  function StringGroups(result: Json): (r: Outcome<seq<Json>>)
    ensures r.Fail? ==> r.error.Malformed?
  {
    var groups :- Get(result, "stringmppt");
    Items(groups)
  }

  function PhaseKeys(result: Json): (r: Outcome<seq<string>>)
    ensures r.Fail? ==> r.error.Malformed?
  {
    var currents :- Get(result, "correnteCA");
    Keys(currents)
  }

  function Populate(result: Json): (p: Population)
    ensures p.failure.Some? ==> p.failure.value.Malformed?
    ensures p.failure.None? ==> StringGroups(result).Ok? && PhaseKeys(result).Ok?
    ensures p.failure.None? ==> |p.mppts| == |StringGroups(result).value|
                                && |p.phases| == |PhaseNames(PhaseKeys(result).value)|
    ensures p.phases != [] ==> StringGroups(result).Ok? && p.mppts == MpptRun(result, StringGroups(result).value).done
    ensures StringGroups(result).Fail? ==> p == Population([], [], Some(StringGroups(result).error))
    ensures StringGroups(result).Ok? ==>
              var m := MpptRun(result, StringGroups(result).value);
              p.mppts == m.done
              && (m.failure.Some? ==> p.phases == [] && p.failure == m.failure)
              && (m.failure.None? && PhaseKeys(result).Fail? ==> p.phases == [] && p.failure == Some(PhaseKeys(result).error))
              && (m.failure.None? && PhaseKeys(result).Ok? ==>
                    p.phases == PhaseRun(result, PhaseKeys(result).value).done
                    && p.failure == PhaseRun(result, PhaseKeys(result).value).failure)
  {
    match StringGroups(result)
    case Fail(e) => Population([], [], Some(e))
    case Ok(groups) =>
      var m := MpptRun(result, groups);
      if m.failure.Some? then Population(m.done, [], m.failure)
      else match PhaseKeys(result)
        case Fail(e) => Population(m.done, [], Some(e))
        case Ok(keys) =>
          var ph := PhaseRun(result, keys);
          Population(m.done, ph.done, ph.failure)
  }

  // ---------------------------------------------------------------------------
  // Inverter detail and complete_inverter

  /** `float(result[key].replace(",", "."))`. */
  function ReadCommaFloat(result: Json, key: string): (r: Outcome<real>)
    ensures r.Fail? ==> r.error.Malformed?
  {
    var raw :- Get(result, key);
    CommaFloat(raw)
  }

  /** The inverter built from the detail payload, before its MPPTs and phases
      are populated: every reading, unit, status and temperature, no lists. */
  function DecodeInverterHead(id: int, result: Json): (r: Outcome<InverterValue>)
    ensures r.Fail? ==> r.error.Malformed?
    ensures r.Ok? ==> r.value.id == id && r.value.mppts == [] && r.value.phases == []
    ensures r.Ok? ==> ReadValueMetric(result, "energiaacumulada", "kWh") == Ok((r.value.totalEnergy, r.value.totalEnergyMetric))
    ensures r.Ok? ==> ReadValueMetric(result, "energiadodia", "kWh") == Ok((r.value.todayEnergy, r.value.todayEnergyMetric))
    ensures r.Ok? ==> ReadValueMetric(result, "potenciaativa", "kW") == Ok((r.value.power, r.value.powerMetric))
    ensures r.Ok? ==> ReadCommaFloat(result, "fatorpotencia") == Ok(r.value.powerFactor)
    ensures r.Ok? ==> ReadCommaFloat(result, "frequencia") == Ok(r.value.frequency)
    ensures r.Ok? ==> Get(result, "statusInversor").Ok?
                      && StatusOfOrdinal(Get(result, "statusInversor").value) == Ok(r.value.status)
  {
    var (totalEnergy, totalEnergyMetric) :- ReadValueMetric(result, "energiaacumulada", "kWh");
    var (todayEnergy, todayEnergyMetric) :- ReadValueMetric(result, "energiadodia", "kWh");
    var (power, powerMetric) :- ReadValueMetric(result, "potenciaativa", "kW");
    var name :- Get2(result, "inversor", "nome");
    var name :- AsText(name);
    var sn :- Get2(result, "inversor", "esn");
    var sn :- AsText(sn);
    var powerFactor :- ReadCommaFloat(result, "fatorpotencia");
    var frequency :- ReadCommaFloat(result, "frequencia");
    var status :- Get(result, "statusInversor");
    var status :- StatusOfOrdinal(status);
    var temperature :- Get(result, "temperatura");
    var temperature :- AsInteger(temperature);
    Ok(InverterValue(id, name, sn, status, temperature, totalEnergy, totalEnergyMetric,
                     todayEnergy, todayEnergyMetric, powerFactor, frequency, power, powerMetric, [], []))
  }

  /** The inverter detail payload as an Inverter with its MPPTs and phases. */
  function DecodeInverter(id: int, result: Json): (r: Outcome<InverterValue>)
    ensures r.Fail? ==> r.error.Malformed?
    ensures r.Ok? ==> DecodeInverterHead(id, result).Ok? && Populate(result).failure.None?
    ensures r.Ok? ==> r.value == DecodeInverterHead(id, result).value.(mppts := Populate(result).mppts,
                                                                        phases := Populate(result).phases)
  {
    var head :- DecodeInverterHead(id, result);
    var p := Populate(result);
    if p.failure.Some? then Fail(p.failure.value)
    else Ok(head.(mppts := p.mppts, phases := p.phases))
  }

  /** `complete_inverter` on the value of an inverter: each reading is assigned
      as soon as it is read, so a failure leaves the earlier assignments (and
      the MPPTs and phases already appended) in place. */
  function Complete(v: InverterValue, result: Json): (r: (Outcome<()>, InverterValue))
    ensures r.0.Fail? ==> r.0.error.Malformed?
    ensures r.1.SameIdentity(v)
    ensures v.mppts <= r.1.mppts && v.phases <= r.1.phases
    ensures r.0.Ok? ==> Populate(result).failure.None?
                        && r.1.mppts == v.mppts + Populate(result).mppts
                        && r.1.phases == v.phases + Populate(result).phases
  {
    match ReadValueMetric(result, "energiaacumulada", "kWh")
    case Fail(e) => (Fail(e), v)
    case Ok((totalEnergy, totalEnergyMetric)) =>
      var v1 := v.(totalEnergy := totalEnergy, totalEnergyMetric := totalEnergyMetric);
      match ReadValueMetric(result, "energiadodia", "kWh")
      case Fail(e) => (Fail(e), v1)
      case Ok((todayEnergy, todayEnergyMetric)) =>
        var v2 := v1.(todayEnergy := todayEnergy, todayEnergyMetric := todayEnergyMetric);
        match ReadValueMetric(result, "potenciaativa", "kW")
        case Fail(e) => (Fail(e), v2)
        case Ok((power, powerMetric)) =>
          var v3 := v2.(power := power, powerMetric := powerMetric);
          match ReadCommaFloat(result, "fatorpotencia")
          case Fail(e) => (Fail(e), v3)
          case Ok(powerFactor) =>
            var v4 := v3.(powerFactor := powerFactor);
            match ReadCommaFloat(result, "frequencia")
            case Fail(e) => (Fail(e), v4)
            case Ok(frequency) =>
              var v5 := v4.(frequency := frequency);
              var p := Populate(result);
              (if p.failure.Some? then Fail(p.failure.value) else Ok(()),
               v5.(mppts := v5.mppts + p.mppts, phases := v5.phases + p.phases))
  }

  /** Completing an inverter never changes its identity, and on success it
      holds exactly what a fresh inverter fetch of the same payload holds,
      apart from the identity fields, which the stub keeps. */
  lemma CompleteAgreesWithInverter(v: InverterValue, result: Json)
    requires v.mppts == [] && v.phases == []
    requires DecodeInverter(v.id, result).Ok?
    ensures Complete(v, result).0 == Ok(())
    ensures Complete(v, result).1
         == DecodeInverter(v.id, result).value.(name := v.name, sn := v.sn, status := v.status,
                                                temperature := v.temperature)
  {
  }

  // ---------------------------------------------------------------------------
  // Month statistics

  /** The month statistics query: plant id, inverter id (empty for every
      inverter) and the month as `MM/YYYY`. */
  function MonthStatsQuery(year: int, month: int, plantId: int, inverterId: Option<int>): (q: string)
    ensures MonthStatsPath + "idusina=" + IntToString(plantId) + "&idinversor=" <= q
  {
    var inverterText := if inverterId.Some? then IntToString(inverterId.value) else "";
    MonthStatsPath + "idusina=" + IntToString(plantId) + "&idinversor=" + inverterText
    + "&date=" + TwoDigits(month) + "/" + IntToString(year)
  }

  /** For a calendar month, the date field of the query is the month as two
      digits that read back as the month, then the year; the inverter field is
      the inverter id, or empty when there is none. */
  lemma MonthStatsQueryFields(year: int, month: int, plantId: int, inverterId: Option<int>)
    requires 1 <= month <= 12
    ensures exists mm: string {:trigger ParseInt(mm)} :: |mm| == 2 && AllDigits(mm) && ParseInt(mm) == Some(month)
              && MonthStatsQuery(year, month, plantId, inverterId)
                 == MonthStatsPath + "idusina=" + IntToString(plantId) + "&idinversor="
                    + (if inverterId.Some? then IntToString(inverterId.value) else "")
                    + "&date=" + mm + "/" + IntToString(year)
  {
    TwoDigitsRoundTrip(month);
    var mm := TwoDigits(month);
    assert |mm| == 2 && AllDigits(mm) && ParseInt(mm) == Some(month);
  }

  /** One day of the month statistics. */
  function DecodeStatsItem(parseDate: DateParser, item: Json): (r: Outcome<ProductionStats>)
    ensures r.Fail? ==> r.error.Malformed?
    ensures r.Ok? ==> Get(item, "tempoatual").Ok?
                      && ParseDateTime(parseDate, Get(item, "tempoatual").value).Ok?
                      && r.value.date == ParseDateTime(parseDate, Get(item, "tempoatual").value).value.Day()
    ensures r.Ok? ==> Get(item, "energiapordia").Ok? && Float(Get(item, "energiapordia").value) == Ok(r.value.production)
    ensures r.Ok? ==> Get(item, "prognostico").Ok? && Float(Get(item, "prognostico").value) == Ok(r.value.prognostic)
  {
    var when :- Get(item, "tempoatual");
    var when :- ParseDateTime(parseDate, when);
    var production :- Get(item, "energiapordia");
    var production :- Float(production);
    var prognostic :- Get(item, "prognostico");
    var prognostic :- Float(prognostic);
    Ok(ProductionStats(when.Day(), production, prognostic))
  }

  function DecodeStatsItems(parseDate: DateParser, items: seq<Json>): (r: Outcome<seq<ProductionStats>>)
    ensures r.Fail? ==> r.error.Malformed?
    ensures r.Ok? ==> |r.value| == |items|
    ensures r.Ok? ==> forall k :: 0 <= k < |items| ==> DecodeStatsItem(parseDate, items[k]) == Ok(r.value[k])
    decreases |items|
  {
    if items == [] then Ok([])
    else
      var init :- DecodeStatsItems(parseDate, items[..|items| - 1]);
      var last :- DecodeStatsItem(parseDate, items[|items| - 1]);
      Ok(init + [last])
  }

  /** The `graficomes` list as one record per day, in payload order. */
  function DecodeMonthStats(parseDate: DateParser, result: Json): (r: Outcome<seq<ProductionStats>>)
    ensures r.Fail? ==> r.error.Malformed?
    ensures r.Ok? ==> Get(result, "graficomes").Ok? && Items(Get(result, "graficomes").value).Ok?
                      && |r.value| == |Items(Get(result, "graficomes").value).value|
    ensures r.Ok? ==> forall k :: 0 <= k < |r.value| ==>
                        DecodeStatsItem(parseDate, Items(Get(result, "graficomes").value).value[k]) == Ok(r.value[k])
  {
    var listed :- Get(result, "graficomes");
    var items :- Items(listed);
    DecodeStatsItems(parseDate, items)
  }

  // ---------------------------------------------------------------------------
  // Plant list

  /** The five buckets of the plant list, concatenated in this order. */
  const PlantBuckets := ["nao_comissionadas", "conectadas", "falhas", "alertas", "atendimento"]

  /** One bucket of the plant list: a list member of the payload. */
  function Bucket(result: Json, name: string): (r: Outcome<seq<Json>>)
    ensures r.Fail? ==> r.error.Malformed?
    ensures r.Ok? <==> Get(result, name).Ok? && Get(result, name).value.JArr?
    ensures r.Ok? ==> r.value == Get(result, name).value.items
  {
    var bucket :- Get(result, name);
    AsList(bucket)
  }

  /** The buckets named, concatenated in order; the first bad bucket fails it. */
  function ConcatBuckets(result: Json, buckets: seq<string>): (r: Outcome<seq<Json>>)
    ensures r.Fail? ==> r.error.Malformed?
    ensures r.Ok? <==> forall b :: b in buckets ==> Bucket(result, b).Ok?
    decreases |buckets|
  {
    if buckets == [] then Ok([])
    else
      var init :- ConcatBuckets(result, buckets[..|buckets| - 1]);
      var items :- Bucket(result, buckets[|buckets| - 1]);
      assert buckets == buckets[..|buckets| - 1] + [buckets[|buckets| - 1]];
      Ok(init + items)
  }

  /** One more bucket appends its items, as long as the earlier ones are lists. */
  lemma ConcatBucketsSnoc(result: Json, buckets: seq<string>, b: string)
    requires ConcatBuckets(result, buckets).Ok? && Bucket(result, b).Ok?
    ensures ConcatBuckets(result, buckets + [b]) == Ok(ConcatBuckets(result, buckets).value + Bucket(result, b).value)
  {
    assert (buckets + [b])[..|buckets|] == buckets;
  }

  /** A concatenation that succeeds is its first buckets' concatenation
      followed by the last bucket. */
  lemma ConcatBucketsInit(result: Json, buckets: seq<string>)
    requires buckets != [] && ConcatBuckets(result, buckets).Ok?
    ensures ConcatBuckets(result, buckets[..|buckets| - 1]).Ok? && Bucket(result, buckets[|buckets| - 1]).Ok?
    ensures ConcatBuckets(result, buckets).value
         == ConcatBuckets(result, buckets[..|buckets| - 1]).value + Bucket(result, buckets[|buckets| - 1]).value
  {
  }

  /** The plant summaries of the list payload: the five buckets concatenated in
      order, and a failure exactly when one of them is missing or not a list. */
  function PlantSummaries(result: Json): (r: Outcome<seq<Json>>)
    ensures r.Fail? ==> r.error.Malformed?
    ensures r.Ok? <==> forall b :: b in PlantBuckets ==> Bucket(result, b).Ok?
    ensures r.Ok? ==> r.value == Bucket(result, "nao_comissionadas").value + Bucket(result, "conectadas").value
                                 + Bucket(result, "falhas").value + Bucket(result, "alertas").value
                                 + Bucket(result, "atendimento").value
  {
    FiveBuckets(result);
    ConcatBuckets(result, PlantBuckets)
  }

  lemma FiveBuckets(result: Json)
    ensures ConcatBuckets(result, PlantBuckets).Ok? ==>
              ConcatBuckets(result, PlantBuckets).value
              == Bucket(result, "nao_comissionadas").value + Bucket(result, "conectadas").value
                 + Bucket(result, "falhas").value + Bucket(result, "alertas").value
                 + Bucket(result, "atendimento").value
  {
    var bs := PlantBuckets;
    if ConcatBuckets(result, bs).Ok? {
      ConcatBucketsInit(result, bs);
      assert bs[..4][..3] == bs[..3];
      ConcatBucketsInit(result, bs[..4]);
      assert bs[..3][..2] == bs[..2];
      ConcatBucketsInit(result, bs[..3]);
      assert bs[..2][..1] == bs[..1];
      ConcatBucketsInit(result, bs[..2]);
      assert bs[..1][..0] == [];
      ConcatBucketsInit(result, bs[..1]);
    }
  }

  /** The plant id a summary names. */
  function SummaryId(summary: Json): (r: Outcome<int>)
    ensures r.Fail? ==> r.error.Malformed?
  {
    var id :- Get(summary, "id");
    AsInteger(id)
  }
}
