/**
 * The API client object (`APIHelper` in sunweg/api.py): credentials and a
 * token it updates in place, the requests it sends, and the operations that
 * build Plant, Inverter and MPPT objects or complete an Inverter in place.
 * Each method is proved to do what the session functions of module Sessions
 * say, on the client's state and on the objects it builds or changes.
 */
module Client {
  import opened Options
  import opened Text
  import opened Json
  import opened Util
  import opened Device
  import opened Plants
  import opened Api
  import opened Translate
  import opened Sessions

  /** The string loop of `_populate_MPPT`: one string decoded and appended to
      the MPPT per entry, until an entry fails. */
  method AppendStrings(mppt: MPPT, entries: seq<Json>, decode: Json -> Outcome<String>) returns (failure: Option<Failure>)
    modifies mppt
    ensures mppt.strings == old(mppt.strings) + RunOf(decode, entries).done
    ensures failure == RunOf(decode, entries).failure
  {
    var j := 0;
    while j < |entries|
      invariant 0 <= j <= |entries|
      invariant RunOf(decode, entries[..j]).failure.None?
      invariant mppt.strings == old(mppt.strings) + RunOf(decode, entries[..j]).done
    {
      RunOfNext(decode, entries, j);
      var s := decode(entries[j]);
      if s.Fail? {
        return Some(s.error);
      }
      mppt.AppendString(s.value);
      j := j + 1;
    }
    assert entries[..j] == entries;
    return None;
  }

  /** Builds one MPPT object from a `stringmppt` group: the object is created
      once its name is read, then its strings are appended one by one. */
  method BuildMppt(result: Json, group: Json) returns (r: Outcome<MPPT>)
    ensures r.Ok? ==> fresh(r.value) && DecodeGroup(result, group) == Ok(r.value.View())
    ensures r.Fail? ==> DecodeGroup(result, group) == Fail(r.error)
  {
    var name := Get(group, "nomemppt");
    if name.Fail? {
      return Fail(name.error);
    }
    var nameText := AsText(name.value);
    if nameText.Fail? {
      return Fail(nameText.error);
    }
    var mppt := new MPPT(nameText.value);
    var entries := GroupEntries(group);
    if entries.Fail? {
      return Fail(entries.error);
    }
    assert mppt.strings == [];
    var failure := AppendStrings(mppt, entries.value, e => DecodeString(result, e));
    var strings := DecodeStrings(result, entries.value);
    assert mppt.strings == StringsRun(result, entries.value).done;
    if failure.Some? {
      assert strings == Fail(failure.value);
      return Fail(failure.value);
    }
    assert strings == Ok(mppt.strings);
    return Ok(mppt);
  }

  /** A new Inverter object holding a value that has no MPPTs and no phases. */
  method NewInverter(v: InverterValue) returns (inverter: Inverter)
    requires v.mppts == [] && v.phases == []
    ensures fresh(inverter) && inverter.mppts == [] && inverter.View() == v
  {
    inverter := new Inverter(
      v.id, v.name, v.sn, v.status, v.temperature, v.totalEnergy, v.totalEnergyMetric,
      v.todayEnergy, v.todayEnergyMetric, v.powerFactor, v.frequency, v.power, v.powerMetric);
  }

  /** Builds the inverter objects of a plant from their stub values: one new
      inverter without MPPTs per stub, in order. */
  method BuildStubs(values: seq<InverterValue>) returns (invs: seq<Inverter>)
    requires forall k :: 0 <= k < |values| ==> values[k].IsStub()
    ensures |invs| == |values|
    ensures forall k :: 0 <= k < |invs| ==> fresh(invs[k]) && invs[k].mppts == []
    ensures InverterViews(invs) == values
  {
    invs := [];
    var i := 0;
    while i < |values|
      invariant 0 <= i <= |values|
      invariant |invs| == i
      invariant forall k :: 0 <= k < i ==> fresh(invs[k]) && invs[k].mppts == [] && invs[k].View() == values[k]
    {
      var inv := NewInverter(values[i]);
      invs := invs + [inv];
      i := i + 1;
    }
    InverterViewsAre(invs, values);
  }

  /** The plant object of a decoded plant: the plant itself, then its
      inverters, built from their stubs and appended in one extend. */
  method BuildPlant(v: PlantValue) returns (p: Plants.Plant)
    requires forall k :: 0 <= k < |v.inverters| ==> v.inverters[k].IsStub()
    ensures fresh(p)
    ensures forall k :: 0 <= k < |p.inverters| ==> fresh(p.inverters[k]) && p.inverters[k].mppts == []
    ensures p.View() == v
  {
    p := NewPlant(v);
    var invs := BuildStubs(v.inverters);
    p.ExtendInverters(invs);
    assert [] + v.inverters == v.inverters;
  }

  /** A new Plant object holding the summary fields of a value, with no inverters yet. */
  method NewPlant(v: PlantValue) returns (p: Plants.Plant)
    ensures fresh(p) && p.inverters == [] && p.View() == v.(inverters := [])
  {
    p := new Plants.Plant(
      v.id, v.name, v.totalPower, v.kwhPerKwp, v.performanceRate, v.saving, v.todayEnergy,
      v.todayEnergyMetric, v.totalEnergy, v.totalCarbonSaving, v.lastUpdate);
  }

  class APIHelper {
    const env: Env
    var username: Option<string>
    var password: Option<string>
    var token: Option<string>
    /** The HTTP session (`self.session`), seen through the requests sent on
        it so far, in order: what the server answers may depend on them. */
    var sent: seq<Request>

    function State(): Session
      reads this
    {
      Session(username, password, token, sent)
    }

    /** A client holds whatever credentials and token it is given, and has sent nothing. */
    constructor (env: Env, username: Option<string> := None, password: Option<string> := None,
                 token: Option<string> := None)
      ensures this.env == env
      ensures State() == Session(username, password, token, [])
    {
      this.env := env;
      this.username, this.password, this.token := username, password, token;
      sent := [];
    }

    /** `set_token`. */
    method SetToken(token: string)
      modifies this
      ensures State() == old(State()).(token := Some(token))
    {
      this.token := Some(token);
    }

    /** The write-only `username` property. */
    method SetUsername(username: string)
      modifies this
      ensures State() == old(State()).(username := Some(username))
    {
      this.username := Some(username);
    }

    /** The write-only `password` property. */
    method SetPassword(password: string)
      modifies this
      ensures State() == old(State()).(password := Some(password))
    {
      this.password := Some(password);
    }

    /** `_get`. */
    method HttpGet(path: string, launch: bool := true) returns (r: Outcome<Json>)
      modifies this
      ensures (r, State()) == GetJson(env, old(State()), path, launch)
    {
      var req := GetRequest(SunwegUrl + path, Headers(token));
      var response := env.transport(|sent|, req);
      sent := sent + [req];
      r := TreatResponse(response, launch);
    }

    /** `_post`. */
    method HttpPost(path: string, data: Json, launch: bool := true) returns (r: Outcome<Json>)
      modifies this
      ensures var req := PostRequest(SunwegUrl + path, data, Headers(old(token)));
              r == TreatResponse(env.transport(|old(sent)|, req), launch)
              && State() == old(State()).(sent := old(sent) + [req])
    {
      var req := PostRequest(SunwegUrl + path, data, Headers(token));
      var response := env.transport(|sent|, req);
      sent := sent + [req];
      r := TreatResponse(response, launch);
    }

    /** `authenticate`. */
    method Authenticate() returns (r: Outcome<bool>)
      modifies this
      ensures (r, State()) == Sessions.Authenticate(env, old(State()))
    {
      if username.None? || password.None? {
        return Ok(false);
      }
      var response := HttpPost(LoginPath, LoginBody(username.value, password.value), false);
      if response.Fail? {
        return Fail(response.error);
      }
      var success := Get(response.value, "success");
      if success.Fail? {
        return Fail(success.error);
      }
      if !Truthy(success.value) {
        return Ok(false);
      }
      var newToken := Get(response.value, "token");
      if newToken.Fail? {
        return Fail(newToken.error);
      }
      var text := AsText(newToken.value);
      if text.Fail? {
        return Fail(text.error);
      }
      token := Some(text.value);
      return Ok(true);
    }

    /** The `try` body of `plant`: the detail GET, the plant object, then its
        inverters built from the listed stubs and appended in one extend. */
    method TryPlant(id: int) returns (r: Outcome<Option<Plants.Plant>>)
      modifies this
      ensures State() == PlantAttempt(env, old(State()), id).1
      ensures r.Fail? ==> PlantAttempt(env, old(State()), id).0 == Fail(r.error)
      ensures r.Ok? ==> r.value.Some? && fresh(r.value.value)
                        && PlantAttempt(env, old(State()), id).0 == Ok(Some(r.value.value.View()))
      ensures r.Ok? ==> forall k :: 0 <= k < |r.value.value.inverters| ==>
                          fresh(r.value.value.inverters[k]) && r.value.value.inverters[k].mppts == []
    {
      var result := HttpGet(PlantDetailPath + IntToString(id));
      if result.Fail? {
        return Fail(result.error);
      }
      var v := DecodePlant(env.parseDate, id, result.value);
      if v.Fail? {
        return Fail(v.error);
      }
      var p := BuildPlant(v.value);
      return Ok(Some(p));
    }

    /** `plant(id, retry)`: None only when the retry meets a LoginError again. */
    method Plant(id: int, retry: bool := true) returns (r: Outcome<Option<Plants.Plant>>)
      modifies this
      decreases if retry then 1 else 0
      ensures State() == PlantCall(env, old(State()), id, retry).1
      ensures r.Fail? ==> PlantCall(env, old(State()), id, retry).0 == Fail(r.error)
      ensures r.Ok? && r.value.None? ==> PlantCall(env, old(State()), id, retry).0 == Ok(None)
      ensures r.Ok? && r.value.Some? ==> fresh(r.value.value)
                                         && PlantCall(env, old(State()), id, retry).0 == Ok(Some(r.value.value.View()))
      ensures r.Ok? && r.value.Some? ==> forall k :: 0 <= k < |r.value.value.inverters| ==>
                                           fresh(r.value.value.inverters[k]) && r.value.value.inverters[k].mppts == []
    {
      r := TryPlant(id);
      if !r.IsLoginError() {
        return;
      }
      if !retry {
        return Ok(None);
      }
      var a := Authenticate();
      if a.Fail? {
        return Fail(a.error);
      }
      r := Plant(id, false);
    }

    /** The `try` body of `inverter`: the detail GET, the inverter object
        built from the readings, then its MPPTs and phases populated. */
    method TryInverter(id: int) returns (r: Outcome<Option<Inverter>>)
      modifies this
      ensures State() == InverterAttempt(env, old(State()), id).1
      ensures r.Fail? ==> InverterAttempt(env, old(State()), id).0 == Fail(r.error)
      ensures r.Ok? ==> r.value.Some? && fresh(r.value.value)
                        && InverterAttempt(env, old(State()), id).0 == Ok(Some(r.value.value.View()))
      ensures r.Ok? ==> forall m :: m in r.value.value.mppts ==> fresh(m)
    {
      var result := HttpGet(InverterDetailPath + IntToString(id));
      if result.Fail? {
        return Fail(result.error);
      }
      var inverter := BuildInverter(id, result.value);
      if inverter.Fail? {
        return Fail(inverter.error);
      }
      return Ok(Some(inverter.value));
    }

    /** The inverter object of a detail payload: built from the readings,
        then its MPPTs and phases populated. */
    method BuildInverter(id: int, result: Json) returns (r: Outcome<Inverter>)
      ensures r.Fail? ==> DecodeInverter(id, result) == Fail(r.error)
      ensures r.Ok? ==> fresh(r.value) && DecodeInverter(id, result) == Ok(r.value.View())
      ensures r.Ok? ==> forall m :: m in r.value.mppts ==> fresh(m)
    {
      var head := DecodeInverterHead(id, result);
      if head.Ok? {
        r := NewPopulated(head.value, result);
      } else {
        r := Fail(head.error);
      }
    }

    /** A new Inverter object holding `head`, then populated with the MPPTs and
        phases of the payload. */
    method NewPopulated(head: InverterValue, result: Json) returns (r: Outcome<Inverter>)
      requires head.mppts == [] && head.phases == []
      ensures r.Fail? ==> Populate(result).failure == Some(r.error)
      ensures r.Ok? ==> Populate(result).failure.None? && fresh(r.value)
                        && r.value.View() == head.(mppts := Populate(result).mppts, phases := Populate(result).phases)
      ensures r.Ok? ==> forall m :: m in r.value.mppts ==> fresh(m)
    {
      var inverter := NewInverter(head);
      var populated := PopulateMppt(inverter, result);
      r := if populated.Ok? then Ok(inverter) else Fail(populated.error);
    }

    /** `inverter(id, retry)`: None only when the retry meets a LoginError again. */
    method Inverter(id: int, retry: bool := true) returns (r: Outcome<Option<Device.Inverter>>)
      modifies this
      decreases if retry then 1 else 0
      ensures State() == InverterCall(env, old(State()), id, retry).1
      ensures r.Fail? ==> InverterCall(env, old(State()), id, retry).0 == Fail(r.error)
      ensures r.Ok? && r.value.None? ==> InverterCall(env, old(State()), id, retry).0 == Ok(None)
      ensures r.Ok? && r.value.Some? ==> fresh(r.value.value)
                                         && InverterCall(env, old(State()), id, retry).0 == Ok(Some(r.value.value.View()))
      ensures r.Ok? && r.value.Some? ==> forall m :: m in r.value.value.mppts ==> fresh(m)
    {
      r := TryInverter(id);
      if !r.IsLoginError() {
        return;
      }
      if !retry {
        return Ok(None);
      }
      var a := Authenticate();
      if a.Fail? {
        return Fail(a.error);
      }
      r := Inverter(id, false);
    }

    /** The `try` body of `complete_inverter`: the detail GET of the
        inverter's id, then the in-place completion. */
    method TryComplete(inverter: Inverter) returns (r: Outcome<()>)
      modifies this, inverter
      ensures (r, inverter.View(), State()) == CompleteAttempt(env, old(State()), old(inverter.View()))
      ensures old(inverter.mppts) <= inverter.mppts
      ensures forall m :: m in inverter.mppts ==> m in old(inverter.mppts) || fresh(m)
    {
      var result := HttpGet(InverterDetailPath + IntToString(inverter.id));
      if result.Fail? {
        return Fail(result.error);
      }
      r := CompleteFrom(inverter, result.value);
    }

    /** `complete_inverter(inverter, retry)`: the readings, MPPTs and phases of
        the detail payload stored on the given inverter; a LoginError on the
        retry leaves it as the first try left it. */
    method CompleteInverter(inverter: Inverter, retry: bool := true) returns (r: Outcome<()>)
      modifies this, inverter
      decreases if retry then 1 else 0
      ensures (r, inverter.View(), State()) == CompleteCall(env, old(State()), old(inverter.View()), retry)
      ensures old(inverter.mppts) <= inverter.mppts
      ensures forall m :: m in inverter.mppts ==> m in old(inverter.mppts) || fresh(m)
    {
      r := TryComplete(inverter);
      if !r.IsLoginError() {
        return;
      }
      if !retry {
        return Ok(());
      }
      var a := Authenticate();
      if a.Fail? {
        return Fail(a.error);
      }
      r := CompleteInverter(inverter, false);
    }

    /** The `try` body of `complete_inverter` after the GET: each reading is
        stored on the inverter as soon as it is read, then the MPPTs and phases
        are appended. */
    method CompleteFrom(inverter: Inverter, result: Json) returns (r: Outcome<()>)
      modifies inverter
      ensures (r, inverter.View()) == Complete(old(inverter.View()), result)
      ensures old(inverter.mppts) <= inverter.mppts
      ensures forall m :: m in inverter.mppts ==> m in old(inverter.mppts) || fresh(m)
    {
      ghost var v0 := inverter.View();
      var total := ReadValueMetric(result, "energiaacumulada", "kWh");
      if total.Fail? {
        assert Complete(v0, result) == (Fail(total.error), v0);
        return Fail(total.error);
      }
      inverter.SetTotalEnergy(total.value.0);
      inverter.totalEnergyMetric := total.value.1;
      ghost var v1 := v0.(totalEnergy := total.value.0, totalEnergyMetric := total.value.1);
      assert inverter.View() == v1;
      var today := ReadValueMetric(result, "energiadodia", "kWh");
      if today.Fail? {
        assert Complete(v0, result) == (Fail(today.error), v1);
        return Fail(today.error);
      }
      inverter.SetTodayEnergy(today.value.0);
      inverter.todayEnergyMetric := today.value.1;
      ghost var v2 := v1.(todayEnergy := today.value.0, todayEnergyMetric := today.value.1);
      assert inverter.View() == v2;
      var power := ReadValueMetric(result, "potenciaativa", "kW");
      if power.Fail? {
        assert Complete(v0, result) == (Fail(power.error), v2);
        return Fail(power.error);
      }
      inverter.SetPower(power.value.0);
      inverter.powerMetric := power.value.1;
      ghost var v3 := v2.(power := power.value.0, powerMetric := power.value.1);
      assert inverter.View() == v3;
      var powerFactor := ReadCommaFloat(result, "fatorpotencia");
      if powerFactor.Fail? {
        assert Complete(v0, result) == (Fail(powerFactor.error), v3);
        return Fail(powerFactor.error);
      }
      inverter.SetPowerFactor(powerFactor.value);
      var frequency := ReadCommaFloat(result, "frequencia");
      if frequency.Fail? {
        assert Complete(v0, result) == (Fail(frequency.error), v3.(powerFactor := powerFactor.value));
        return Fail(frequency.error);
      }
      inverter.SetFrequency(frequency.value);
      ghost var v5 := v3.(powerFactor := powerFactor.value, frequency := frequency.value);
      assert inverter.View() == v5;
      r := PopulateMppt(inverter, result);
    }

    /** One pass of the plant loop of `listPlants`: the summary's id, then
        `plant(id)`; the plant that comes back is new and reaches no older object. */
    method PlantOfSummary(summary: Json) returns (r: Outcome<Option<Plants.Plant>>)
      modifies this
      ensures State() == SummaryPlant(env, old(State()), summary).1
      ensures r.Fail? ==> SummaryPlant(env, old(State()), summary).0 == Fail(r.error)
      ensures r.Ok? && r.value.None? ==> SummaryPlant(env, old(State()), summary).0 == Ok(None)
      ensures r.Ok? && r.value.Some? ==> fresh(r.value.value) && this !in r.value.value.Repr()
                                         && SummaryPlant(env, old(State()), summary).0 == Ok(Some(r.value.value.View()))
    {
      var id := SummaryId(summary);
      if id.Fail? {
        return Fail(id.error);
      }
      r := Plant(id.value, true);
      if r.Ok? && r.value.Some? {
        Plants.OutsideStubs(r.value.value.inverters, this);
      }
    }

    /** One turn of the loop of `listPlants`: the pass over summary `i`, and
        where it leaves the plant loop. */
    method NextPlant(summaries: seq<Json>, i: nat, ghost pass: (Session, Json) -> (Outcome<Option<PlantValue>>, Session),
                     ghost s0: Session, ghost views: seq<PlantValue>)
      returns (p: Outcome<Option<Plants.Plant>>)
      requires i < |summaries|
      requires pass == SummaryPass(env)
      requires PlantLoop(pass, s0, summaries[..i]) == (Ok(views), State())
      modifies this
      ensures p.Fail? ==> PlantLoop(pass, s0, summaries) == (Fail(p.error), State())
      ensures p.Ok? && p.value.None? ==> PlantLoop(pass, s0, summaries[..i + 1]) == (Ok(views), State())
      ensures p.Ok? && p.value.Some? ==> fresh(p.value.value) && this !in p.value.value.Repr()
      ensures p.Ok? && p.value.Some? ==>
                PlantLoop(pass, s0, summaries[..i + 1]) == (Ok(views + [p.value.value.View()]), State())
    {
      ghost var before := State();
      p := PlantOfSummary(summaries[i]);
      ghost var pv: Outcome<Option<PlantValue>> :=
        if p.Fail? then Fail(p.error) else if p.value.None? then Ok(None) else Ok(Some(p.value.value.View()));
      PlantLoopStep(pass, s0, summaries, i, views, before, pv, State());
      if p.Fail? {
        PlantLoopStops(pass, s0, summaries, i + 1);
      }
    }

    /** One turn of the loop of `listPlants` with the plants kept so far:
        those keep their values across the call, and a returned plant is
        appended to them. */
    method GrowPlants(summaries: seq<Json>, i: nat, ghost pass: (Session, Json) -> (Outcome<Option<PlantValue>>, Session),
                      ghost s0: Session, plants: seq<Plants.Plant>, ghost views: seq<PlantValue>)
      returns (r: Outcome<seq<Plants.Plant>>, ghost views': seq<PlantValue>)
      requires i < |summaries|
      requires pass == SummaryPass(env)
      requires PlantLoop(pass, s0, summaries[..i]) == (Ok(views), State())
      requires |plants| == |views|
      requires forall k :: 0 <= k < |plants| ==> this !in plants[k].Repr() && plants[k].View() == views[k]
      modifies this
      ensures r.Fail? ==> PlantLoop(pass, s0, summaries) == (Fail(r.error), State())
      ensures r.Ok? ==> PlantLoop(pass, s0, summaries[..i + 1]) == (Ok(views'), State())
      ensures r.Ok? ==> |r.value| == |views'| && plants <= r.value && |r.value| <= |plants| + 1
      ensures r.Ok? ==> forall k :: |plants| <= k < |r.value| ==> fresh(r.value[k])
      ensures r.Ok? ==> forall k :: 0 <= k < |r.value| ==> this !in r.value[k].Repr() && r.value[k].View() == views'[k]
    {
      forall k | 0 <= k < |plants|
        ensures forall o :: o in plants[k].Repr() ==> allocated(o)
      {
        Plants.InvertersReprAllocated(plants[k].inverters);
      }
      var p := NextPlant(summaries, i, pass, s0, views);
      if p.Fail? {
        r, views' := Fail(p.error), views;
      } else if p.value.Some? {
        r, views' := Ok(plants + [p.value.value]), views + [p.value.value.View()];
      } else {
        r, views' := Ok(plants), views;
      }
    }

    /** The loop of `listPlants`: one `plant(id)` call per summary, in bucket
        order, keeping the plants that came back. `pass` is the summary pass
        of this client's environment. */
    method FetchPlantList(summaries: seq<Json>, ghost pass: (Session, Json) -> (Outcome<Option<PlantValue>>, Session))
      returns (r: Outcome<seq<Plants.Plant>>)
      requires pass == SummaryPass(env)
      modifies this
      ensures State() == PlantLoop(pass, old(State()), summaries).1
      ensures r.Fail? ==> PlantLoop(pass, old(State()), summaries).0 == Fail(r.error)
      ensures r.Ok? ==> PlantLoop(pass, old(State()), summaries).0.Ok?
                        && |r.value| == |PlantLoop(pass, old(State()), summaries).0.value|
      ensures r.Ok? ==> forall k :: 0 <= k < |r.value| ==>
                          fresh(r.value[k]) && r.value[k].View() == PlantLoop(pass, old(State()), summaries).0.value[k]
    {
      ghost var s0 := State();
      var plants: seq<Plants.Plant> := [];
      ghost var views: seq<PlantValue> := [];
      var i := 0;
      while i < |summaries|
        invariant 0 <= i <= |summaries|
        invariant PlantLoop(pass, s0, summaries[..i]) == (Ok(views), State())
        invariant |plants| == |views|
        invariant forall k :: 0 <= k < |plants| ==> fresh(plants[k])
        invariant forall k :: 0 <= k < |plants| ==> this !in plants[k].Repr() && plants[k].View() == views[k]
      {
        var grown;
        grown, views := GrowPlants(summaries, i, pass, s0, plants, views);
        if grown.Fail? {
          return Fail(grown.error);
        }
        plants := grown.value;
        i := i + 1;
      }
      assert summaries[..i] == summaries;
      return Ok(plants);
    }

    /** The `try` body of `listPlants`: the plant list GET, the summaries of
        its five buckets, then the plant of each summary. */
    method TryListPlants() returns (r: Outcome<seq<Plants.Plant>>)
      modifies this
      ensures State() == ListPlantsAttempt(env, old(State())).1
      ensures r.Fail? ==> ListPlantsAttempt(env, old(State())).0 == Fail(r.error)
      ensures r.Ok? ==> ListPlantsAttempt(env, old(State())).0.Ok?
                        && |r.value| == |ListPlantsAttempt(env, old(State())).0.value|
      ensures r.Ok? ==> forall k :: 0 <= k < |r.value| ==>
                          fresh(r.value[k]) && r.value[k].View() == ListPlantsAttempt(env, old(State())).0.value[k]
    {
      var result := HttpGet(PlantListPath);
      if result.Fail? {
        return Fail(result.error);
      }
      var summaries := PlantSummaries(result.value);
      if summaries.Fail? {
        return Fail(summaries.error);
      }
      r := FetchPlantList(summaries.value, SummaryPass(env));
    }

    /** `listPlants(retry)`: the plants with their inverters as stubs; no
        plants when the retry meets a LoginError again. */
    method ListPlants(retry: bool := true) returns (r: Outcome<seq<Plants.Plant>>)
      modifies this
      decreases if retry then 1 else 0
      ensures State() == ListPlantsCall(env, old(State()), retry).1
      ensures r.Fail? ==> ListPlantsCall(env, old(State()), retry).0 == Fail(r.error)
      ensures r.Ok? ==> ListPlantsCall(env, old(State()), retry).0.Ok?
                        && |r.value| == |ListPlantsCall(env, old(State()), retry).0.value|
      ensures r.Ok? ==> forall k :: 0 <= k < |r.value| ==>
                          fresh(r.value[k]) && r.value[k].View() == ListPlantsCall(env, old(State()), retry).0.value[k]
    {
      r := TryListPlants();
      if !r.IsLoginError() {
        return;
      }
      if !retry {
        return Ok([]);
      }
      var a := Authenticate();
      if a.Fail? {
        return Fail(a.error);
      }
      r := ListPlants(false);
    }

    /** The `try` body of `month_stats_production_by_id`: the month query,
        then one record per day of the `graficomes` list. */
    method TryMonthStats(year: int, month: int, plantId: int, inverterId: Option<int>)
      returns (r: Outcome<seq<ProductionStats>>)
      modifies this
      ensures (r, State()) == MonthStatsAttempt(env, old(State()), year, month, plantId, inverterId)
    {
      var result := HttpGet(MonthStatsQuery(year, month, plantId, inverterId));
      if result.Fail? {
        return Fail(result.error);
      }
      r := DecodeMonthStats(env.parseDate, result.value);
    }

    /** `month_stats_production_by_id(year, month, plant_id, inverter_id, retry)`:
        no records when the retry meets a LoginError again. */
    method MonthStatsProductionById(year: int, month: int, plantId: int, inverterId: Option<int> := None,
                                    retry: bool := true)
      returns (r: Outcome<seq<ProductionStats>>)
      modifies this
      decreases if retry then 1 else 0
      ensures (r, State()) == MonthStatsCall(env, old(State()), year, month, plantId, inverterId, retry)
    {
      r := TryMonthStats(year, month, plantId, inverterId);
      if !r.IsLoginError() {
        return;
      }
      if !retry {
        return Ok([]);
      }
      var a := Authenticate();
      if a.Fail? {
        return Fail(a.error);
      }
      r := MonthStatsProductionById(year, month, plantId, inverterId, false);
    }

    /** `month_stats_production(year, month, plant, inverter, retry)`: the
        statistics of the plant's id and, when given, the inverter's id. */
    method MonthStatsProduction(year: int, month: int, plant: Plants.Plant, inverter: Option<Inverter> := None,
                                retry: bool := true)
      returns (r: Outcome<seq<ProductionStats>>)
      modifies this
      ensures (r, State()) == MonthStatsCall(env, old(State()), year, month, plant.id,
                                             if inverter.Some? then Some(inverter.value.id) else None, retry)
    {
      r := MonthStatsProductionById(year, month, plant.id, if inverter.Some? then Some(inverter.value.id) else None, retry);
    }

    /** `_populate_MPPT`: appends one MPPT per group, then one phase per
        phase key, stopping at the first failure; earlier entries stay. */
    method PopulateMppt(inverter: Inverter, result: Json) returns (r: Outcome<()>)
      modifies inverter
      ensures Populate(result).failure.None? ==> r == Ok(())
      ensures Populate(result).failure.Some? ==> r == Fail(Populate(result).failure.value)
      ensures inverter.View() == old(inverter.View()).(mppts := old(inverter.View()).mppts + Populate(result).mppts,
                                                        phases := old(inverter.View()).phases + Populate(result).phases)
      ensures old(inverter.mppts) <= inverter.mppts
      ensures forall m :: m in inverter.mppts ==> m in old(inverter.mppts) || fresh(m)
    {
      var groups := StringGroups(result);
      if groups.Fail? {
        return Fail(groups.error);
      }
      var failure := AppendMppts(inverter, result, groups.value, g => DecodeGroup(result, g));
      if failure.Some? {
        return Fail(failure.value);
      }
      var keys := PhaseKeys(result);
      if keys.Fail? {
        return Fail(keys.error);
      }
      failure := AppendPhases(inverter, keys.value, n => DecodePhase(result, n));
      if failure.Some? {
        return Fail(failure.value);
      }
      return Ok(());
    }
  }

  /** The MPPT loop of `_populate_MPPT`: one MPPT object built and appended
      per group until a group fails. `decode` names what the objects are
      proved against: the MPPT value each group decodes to. */
  method AppendMppts(inverter: Inverter, result: Json, groups: seq<Json>, ghost decode: Json -> Outcome<MpptValue>)
    returns (failure: Option<Failure>)
    requires forall g {:trigger DecodeGroup(result, g)} :: decode(g) == DecodeGroup(result, g)
    modifies inverter
    ensures failure == RunOf(decode, groups).failure
    ensures inverter.View() == old(inverter.View()).(mppts := old(inverter.View()).mppts + RunOf(decode, groups).done)
    ensures old(inverter.mppts) <= inverter.mppts
    ensures forall m :: m in inverter.mppts ==> m in old(inverter.mppts) || fresh(m)
  {
    ghost var start := inverter.View();
    var i := 0;
    while i < |groups|
      invariant 0 <= i <= |groups|
      invariant RunOf(decode, groups[..i]).failure.None?
      invariant inverter.View() == start.(mppts := start.mppts + RunOf(decode, groups[..i]).done)
      invariant old(inverter.mppts) <= inverter.mppts
      invariant forall m :: m in inverter.mppts ==> m in old(inverter.mppts) || fresh(m)
    {
      RunOfNext(decode, groups, i);
      ghost var before := inverter.View();
      failure := AppendGroup(inverter, result, groups[i], decode);
      if failure.Some? {
        return;
      }
      ExtendMppts(start, RunOf(decode, groups[..i]).done, before, decode(groups[i]).value);
      i := i + 1;
    }
    assert groups[..i] == groups;
    return None;
  }

  /** Appending to the MPPTs of a value that already extends `start` by `done`. */
  lemma ExtendMppts(start: InverterValue, done: seq<MpptValue>, before: InverterValue, m: MpptValue)
    requires before == start.(mppts := start.mppts + done)
    ensures before.(mppts := before.mppts + [m]) == start.(mppts := start.mppts + (done + [m]))
  {
    assert start.mppts + done + [m] == start.mppts + (done + [m]);
  }

  /** Appending to the phases of a value that already extends `start` by `done`. */
  lemma ExtendPhases(start: InverterValue, done: seq<Phase>, before: InverterValue, p: Phase)
    requires before == start.(phases := start.phases + done)
    ensures before.(phases := before.phases + [p]) == start.(phases := start.phases + (done + [p]))
  {
    assert start.phases + done + [p] == start.phases + (done + [p]);
  }

  /** One turn of the MPPT loop: the group's MPPT object is built and
      appended, or the group's failure reported and the inverter left as it is. */
  method AppendGroup(inverter: Inverter, result: Json, group: Json, ghost decode: Json -> Outcome<MpptValue>)
    returns (failure: Option<Failure>)
    requires forall g {:trigger DecodeGroup(result, g)} :: decode(g) == DecodeGroup(result, g)
    modifies inverter
    ensures failure.Some? ==> decode(group) == Fail(failure.value)
                              && inverter.View() == old(inverter.View()) && inverter.mppts == old(inverter.mppts)
    ensures failure.None? ==> decode(group).Ok?
                              && inverter.View() == old(inverter.View()).(mppts := old(inverter.View()).mppts
                                                                                   + [decode(group).value])
    ensures old(inverter.mppts) <= inverter.mppts
    ensures forall m :: m in inverter.mppts ==> m in old(inverter.mppts) || fresh(m)
  {
    var mppt := BuildMppt(result, group);
    if mppt.Fail? {
      return Some(mppt.error);
    }
    inverter.AppendMppt(mppt.value);
    return None;
  }

  /** The phase loop of `_populate_MPPT`: status keys are skipped, every
      other key decoded to a phase and appended until one fails. */
  method AppendPhases(inverter: Inverter, keys: seq<string>, decode: string -> Outcome<Phase>)
    returns (failure: Option<Failure>)
    modifies inverter
    ensures failure == RunOf(decode, PhaseNames(keys)).failure
    ensures inverter.View()
         == old(inverter.View()).(phases := old(inverter.View()).phases + RunOf(decode, PhaseNames(keys)).done)
    ensures inverter.mppts == old(inverter.mppts)
  {
    ghost var start := inverter.View();
    var j := 0;
    while j < |keys|
      invariant 0 <= j <= |keys|
      invariant RunOf(decode, PhaseNames(keys[..j])).failure.None?
      invariant inverter.View() == start.(phases := start.phases + RunOf(decode, PhaseNames(keys[..j])).done)
      invariant inverter.mppts == old(inverter.mppts)
    {
      var key := keys[j];
      assert keys[..j + 1] == keys[..j] + [key];
      PhaseNamesAppend(keys[..j], [key]);
      assert [key][..0] == [];
      if !EndsWith(key, "status") {
        assert PhaseNames(keys[..j + 1]) == PhaseNames(keys[..j]) + [key];
        RunOfSnoc(decode, PhaseNames(keys[..j]), key);
        var phase := decode(key);
        if phase.Fail? {
          assert keys[..j + 1] + keys[j + 1..] == keys;
          PhaseNamesAppend(keys[..j + 1], keys[j + 1..]);
          RunOfStops(decode, PhaseNames(keys[..j + 1]), PhaseNames(keys[j + 1..]));
          return Some(phase.error);
        }
        ghost var before := inverter.View();
        inverter.AppendPhase(phase.value);
        ExtendPhases(start, RunOf(decode, PhaseNames(keys[..j])).done, before, phase.value);
      } else {
        assert PhaseNames(keys[..j + 1]) == PhaseNames(keys[..j]);
      }
      j := j + 1;
    }
    assert keys[..j] == keys;
    return None;
  }
}
