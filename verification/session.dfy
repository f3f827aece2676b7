/**
 * What a call on the API client does to its session, as functions: the
 * requests it sends, the token it keeps, the value it returns or the
 * exception it raises, and the re-authenticate-and-retry-once rule every
 * public operation follows (sunweg/api.py).
 */
module Sessions {
  import opened Options
  import opened Text
  import opened Json
  import opened Util
  import opened Device
  import opened Plants
  import opened Api
  import opened Translate

  /** The outside world of the client: the server, answering the n-th request
      of the session, and the date-time parser. */
  datatype Env = Env(transport: (nat, Request) -> Response, parseDate: DateParser)

  /** The state of a client: its credentials, its token and the requests it
      has sent so far. */
  datatype Session = Session(
    username: Option<string>,
    password: Option<string>,
    token: Option<string>,
    sent: seq<Request>)

  /** Sends one request: the response depends on the request and on how many
      requests came before it. */
  function Exchange(env: Env, s: Session, req: Request): (r: (Response, Session))
    ensures r.1 == s.(sent := s.sent + [req])
  {
    (env.transport(|s.sent|, req), s.(sent := s.sent + [req]))
  }

  /** `_get(path, launch)`: a GET with the current headers, treated. */
  function GetJson(env: Env, s: Session, path: string, launch: bool := true): (r: (Outcome<Json>, Session))
    ensures r.1 == s.(sent := s.sent + [GetRequest(SunwegUrl + path, Headers(s.token))])
    ensures r.0 == TreatResponse(env.transport(|s.sent|, GetRequest(SunwegUrl + path, Headers(s.token))), launch)
  {
    var (response, s1) := Exchange(env, s, GetRequest(SunwegUrl + path, Headers(s.token)));
    (TreatResponse(response, launch), s1)
  }

  /** The login request the credentials give: a POST of the login body to the
      login path, with the current headers. */
  function LoginRequest(s: Session): (req: Request)
    requires s.username.Some? && s.password.Some?
    ensures req.PostRequest? && req.url == SunwegUrl + LoginPath && req.headers == Headers(s.token)
    ensures Get(req.body, "usuario") == Ok(JStr(s.username.value)) && Get(req.body, "senha") == Ok(JStr(s.password.value))
  {
    PostRequest(SunwegUrl + LoginPath, LoginBody(s.username.value, s.password.value), Headers(s.token))
  }

  /** `authenticate`: without both credentials it is false and sends nothing;
      otherwise it posts the login (errors in the body do not raise) and, when
      the body's `success` is truthy, keeps its token and is true. */
  function Authenticate(env: Env, s: Session): (r: (Outcome<bool>, Session))
    ensures s.username.None? || s.password.None? ==> r == (Ok(false), s)
    ensures r.0 == Ok(false) ==> r.1.token == s.token
    ensures r.0 == Ok(true) ==> s.username.Some? && s.password.Some?
    ensures r.1.username == s.username && r.1.password == s.password
    ensures s.username.Some? && s.password.Some? ==> r.1.sent == s.sent + [LoginRequest(s)]
    ensures r.0 == Ok(true) ==>
              var body := TreatResponse(env.transport(|s.sent|, LoginRequest(s)), false);
              body.Ok? && Get(body.value, "success").Ok? && Truthy(Get(body.value, "success").value)
              && Get(body.value, "token").Ok? && r.1.token.Some? && Get(body.value, "token").value == JStr(r.1.token.value)
    ensures r.0.IsLoginError() ==> s.username.Some? && s.password.Some?
                                   && env.transport(|s.sent|, LoginRequest(s)).statusCode == 401
    ensures s.username.Some? && s.password.Some? ==>
              var body := TreatResponse(env.transport(|s.sent|, LoginRequest(s)), false);
              (body.Fail? ==> r.0 == Fail(body.error))
              && (body.Ok? && Get(body.value, "success").Ok? && !Truthy(Get(body.value, "success").value)
                  ==> r == (Ok(false), s.(sent := s.sent + [LoginRequest(s)])))
              && (body.Ok? && Get(body.value, "success").Ok? && Truthy(Get(body.value, "success").value)
                  && Get(body.value, "token").Ok? && Get(body.value, "token").value.JStr?
                  ==> r == (Ok(true), s.(sent := s.sent + [LoginRequest(s)], token := Some(Get(body.value, "token").value.s))))
    ensures s.username.Some? && s.password.Some? ==>
              var code := env.transport(|s.sent|, LoginRequest(s)).statusCode;
              code != 200 && code != 401 ==> r.0 == Fail(ApiError(JStr(RequestFailed(code))))
  {
    if s.username.None? || s.password.None? then (Ok(false), s)
    else
      var (response, s1) := Exchange(env, s, LoginRequest(s));
      match TreatResponse(response, false)
      case Fail(e) => (Fail(e), s1)
      case Ok(result) =>
        match Get(result, "success")
        case Fail(e) => (Fail(e), s1)
        case Ok(success) =>
          if !Truthy(success) then (Ok(false), s1)
          else match Get(result, "token")
            case Fail(e) => (Fail(e), s1)
            case Ok(token) =>
              match AsText(token)
              case Fail(e) => (Fail(e), s1)
              case Ok(t) => (Ok(true), s1.(token := Some(t)))
  }

  /** The retry rule of every public operation: on a LoginError with `retry`
      set, authenticate (its result ignored, its exceptions not caught) and
      run once more without retry; on a LoginError without `retry`, return
      the fallback. Every other exception passes through. */
  function WithRetry<T>(env: Env, attempt: Session -> (Outcome<T>, Session), fallback: T, s: Session, retry: bool)
    : (r: (Outcome<T>, Session))
    ensures !attempt(s).0.IsLoginError() ==> r == attempt(s)
    ensures attempt(s).0.IsLoginError() && !retry ==> r == (Ok(fallback), attempt(s).1)
    decreases if retry then 1 else 0
  {
    var (o, s1) := attempt(s);
    if !o.IsLoginError() then (o, s1)
    else if !retry then (Ok(fallback), s1)
    else
      var (a, s2) := Authenticate(env, s1);
      if a.Fail? then (Fail(a.error), s2)
      else WithRetry(env, attempt, fallback, s2, false)
  }

  /** Without retry, a LoginError is the fallback and anything else the
      attempt's own outcome. */
  lemma NoRetry<T>(env: Env, attempt: Session -> (Outcome<T>, Session), fallback: T, s: Session)
    ensures attempt(s).0.IsLoginError() ==> WithRetry(env, attempt, fallback, s, false) == (Ok(fallback), attempt(s).1)
    ensures !attempt(s).0.IsLoginError() ==> WithRetry(env, attempt, fallback, s, false) == attempt(s)
    ensures !WithRetry(env, attempt, fallback, s, false).0.IsLoginError()
  {
  }

  /** An exception other than LoginError is never caught. */
  lemma OtherErrorsPassThrough<T>(env: Env, attempt: Session -> (Outcome<T>, Session), fallback: T, s: Session, retry: bool)
    requires attempt(s).0.Fail? && !attempt(s).0.error.LoginError?
    ensures WithRetry(env, attempt, fallback, s, retry) == attempt(s)
  {
  }

  /** A LoginError on the retry gives the fallback: an operation is attempted
      at most twice. */
  lemma SecondLoginErrorGivesFallback<T>(env: Env, attempt: Session -> (Outcome<T>, Session), fallback: T, s: Session)
    requires attempt(s).0.IsLoginError()
    requires Authenticate(env, attempt(s).1).0.Ok?
    requires attempt(Authenticate(env, attempt(s).1).1).0.IsLoginError()
    ensures WithRetry(env, attempt, fallback, s, true)
         == (Ok(fallback), attempt(Authenticate(env, attempt(s).1).1).1)
  {
  }

  /** A LoginError leaves an operation only when the re-authentication itself
      is refused. */
  lemma LoginErrorOnlyFromReauthentication<T>(
    env: Env, attempt: Session -> (Outcome<T>, Session), fallback: T, s: Session, retry: bool)
    requires WithRetry(env, attempt, fallback, s, retry).0.IsLoginError()
    ensures retry && attempt(s).0.IsLoginError()
    ensures Authenticate(env, attempt(s).1).0.IsLoginError()
  {
  }

  /** If one attempt sends at most `k` requests, the operation sends at most
      `2k + 1`: two attempts and one login. */
  lemma {:induction false} RetryBoundsRequests<T>(
    env: Env, attempt: Session -> (Outcome<T>, Session), fallback: T, s: Session, retry: bool, k: nat)
    requires forall s': Session :: s'.sent <= attempt(s').1.sent && |attempt(s').1.sent| <= |s'.sent| + k
    ensures var r := WithRetry(env, attempt, fallback, s, retry);
            s.sent <= r.1.sent && |r.1.sent| <= |s.sent| + (if retry then 2 * k + 1 else k)
    decreases if retry then 1 else 0
  {
    var (o, s1) := attempt(s);
    if o.IsLoginError() && retry {
      var (a, s2) := Authenticate(env, s1);
      assert s1.sent <= s2.sent && |s2.sent| <= |s1.sent| + 1;
      if a.Ok? {
        RetryBoundsRequests(env, attempt, fallback, s2, false, k);
      }
    }
  }

  // ---------------------------------------------------------------------------
  // The operations

  /** One try of `plant(id)`. */
  function PlantAttempt(env: Env, s: Session, id: int): (r: (Outcome<Option<PlantValue>>, Session))
    ensures r.0.Ok? ==> r.0.value.Some? && GetJson(env, s, PlantDetailPath + IntToString(id)).0.Ok?
                        && DecodePlant(env.parseDate, id, GetJson(env, s, PlantDetailPath + IntToString(id)).0.value) == Ok(r.0.value.value)
    ensures r.1 == GetJson(env, s, PlantDetailPath + IntToString(id)).1
    ensures var g := GetJson(env, s, PlantDetailPath + IntToString(id)).0;
            (g.Fail? ==> r.0 == Fail(g.error))
            && (g.Ok? && DecodePlant(env.parseDate, id, g.value).Ok? ==> r.0 == Ok(Some(DecodePlant(env.parseDate, id, g.value).value)))
            && (g.Ok? && DecodePlant(env.parseDate, id, g.value).Fail? ==> r.0 == Fail(DecodePlant(env.parseDate, id, g.value).error))
  {
    var (o, s1) := GetJson(env, s, PlantDetailPath + IntToString(id));
    match o
    case Fail(e) => (Fail(e), s1)
    case Ok(result) =>
      (match DecodePlant(env.parseDate, id, result)
       case Ok(p) => Ok(Some(p))
       case Fail(e) => Fail(e), s1)
  }

  /** `plant(id, retry)`: None only when the retry meets a LoginError again. */
  function PlantCall(env: Env, s: Session, id: int, retry: bool): (r: (Outcome<Option<PlantValue>>, Session))
    ensures !PlantAttempt(env, s, id).0.IsLoginError() ==> r == PlantAttempt(env, s, id)
    ensures r.0 == Ok(None) ==> PlantAttempt(env, s, id).0.IsLoginError()
    ensures PlantAttempt(env, s, id).0.IsLoginError() && !retry ==> r == (Ok(None), PlantAttempt(env, s, id).1)
  {
    WithRetry(env, s' => PlantAttempt(env, s', id), None, s, retry)
  }

  /** One try of `inverter(id)`. */
  function InverterAttempt(env: Env, s: Session, id: int): (r: (Outcome<Option<InverterValue>>, Session))
    ensures r.0.Ok? ==> r.0.value.Some? && GetJson(env, s, InverterDetailPath + IntToString(id)).0.Ok?
                        && DecodeInverter(id, GetJson(env, s, InverterDetailPath + IntToString(id)).0.value) == Ok(r.0.value.value)
    ensures r.1 == GetJson(env, s, InverterDetailPath + IntToString(id)).1
    ensures var g := GetJson(env, s, InverterDetailPath + IntToString(id)).0;
            (g.Fail? ==> r.0 == Fail(g.error))
            && (g.Ok? && DecodeInverter(id, g.value).Ok? ==> r.0 == Ok(Some(DecodeInverter(id, g.value).value)))
            && (g.Ok? && DecodeInverter(id, g.value).Fail? ==> r.0 == Fail(DecodeInverter(id, g.value).error))
  {
    var (o, s1) := GetJson(env, s, InverterDetailPath + IntToString(id));
    match o
    case Fail(e) => (Fail(e), s1)
    case Ok(result) =>
      (match DecodeInverter(id, result)
       case Ok(v) => Ok(Some(v))
       case Fail(e) => Fail(e), s1)
  }

  /** `inverter(id, retry)`. */
  function InverterCall(env: Env, s: Session, id: int, retry: bool): (r: (Outcome<Option<InverterValue>>, Session))
    ensures !InverterAttempt(env, s, id).0.IsLoginError() ==> r == InverterAttempt(env, s, id)
    ensures r.0 == Ok(None) ==> InverterAttempt(env, s, id).0.IsLoginError()
    ensures InverterAttempt(env, s, id).0.IsLoginError() && !retry ==> r == (Ok(None), InverterAttempt(env, s, id).1)
  {
    WithRetry(env, s' => InverterAttempt(env, s', id), None, s, retry)
  }

  /** One try of `month_stats_production_by_id`. */
  function MonthStatsAttempt(env: Env, s: Session, year: int, month: int, plantId: int, inverterId: Option<int>)
    : (r: (Outcome<seq<ProductionStats>>, Session))
    ensures r.1 == GetJson(env, s, MonthStatsQuery(year, month, plantId, inverterId)).1
    ensures var g := GetJson(env, s, MonthStatsQuery(year, month, plantId, inverterId)).0;
            (g.Fail? ==> r.0 == Fail(g.error))
            && (g.Ok? ==> r.0 == DecodeMonthStats(env.parseDate, g.value))
  {
    var (o, s1) := GetJson(env, s, MonthStatsQuery(year, month, plantId, inverterId));
    match o
    case Fail(e) => (Fail(e), s1)
    case Ok(result) => (DecodeMonthStats(env.parseDate, result), s1)
  }

  /** `month_stats_production_by_id(year, month, plant_id, inverter_id, retry)`. */
  function MonthStatsCall(env: Env, s: Session, year: int, month: int, plantId: int, inverterId: Option<int>, retry: bool)
    : (r: (Outcome<seq<ProductionStats>>, Session))
    ensures !MonthStatsAttempt(env, s, year, month, plantId, inverterId).0.IsLoginError()
            ==> r == MonthStatsAttempt(env, s, year, month, plantId, inverterId)
    ensures MonthStatsAttempt(env, s, year, month, plantId, inverterId).0.IsLoginError() && !retry
            ==> r == (Ok([]), MonthStatsAttempt(env, s, year, month, plantId, inverterId).1)
  {
    WithRetry(env, s' => MonthStatsAttempt(env, s', year, month, plantId, inverterId), [], s, retry)
  }

  /** The plant loop of `listPlants`, for any per-summary pass: the passes run
      in order and thread the session; a failing pass ends the loop, and the
      summaries whose pass returns None are skipped. */
  function PlantLoop(pass: (Session, Json) -> (Outcome<Option<PlantValue>>, Session), s: Session, summaries: seq<Json>)
    : (r: (Outcome<seq<PlantValue>>, Session))
    ensures r.0.Ok? ==> |r.0.value| <= |summaries|
    decreases |summaries|
  {
    if summaries == [] then (Ok([]), s)
    else
      var (done, s1) := PlantLoop(pass, s, summaries[..|summaries| - 1]);
      if done.Fail? then (done, s1)
      else
        var (p, s2) := pass(s1, summaries[|summaries| - 1]);
        if p.Fail? then (Fail(p.error), s2)
        else (Ok(done.value + if p.value.Some? then [p.value.value] else []), s2)
  }

  /** The plant loop taken one summary further, given what that summary's
      pass returned. */
  lemma PlantLoopStep(pass: (Session, Json) -> (Outcome<Option<PlantValue>>, Session), s: Session, summaries: seq<Json>,
                      i: nat, views: seq<PlantValue>, s1: Session, p: Outcome<Option<PlantValue>>, s2: Session)
    requires i < |summaries|
    requires PlantLoop(pass, s, summaries[..i]) == (Ok(views), s1)
    requires pass(s1, summaries[i]) == (p, s2)
    ensures p.Fail? ==> PlantLoop(pass, s, summaries[..i + 1]) == (Fail(p.error), s2)
    ensures p.Ok? && p.value.None? ==> PlantLoop(pass, s, summaries[..i + 1]) == (Ok(views), s2)
    ensures p.Ok? && p.value.Some? ==> PlantLoop(pass, s, summaries[..i + 1]) == (Ok(views + [p.value.value]), s2)
  {
    assert summaries[..i + 1][..i] == summaries[..i];
    assert views + [] == views;
  }

  /** A failing pass ends the plant loop: later summaries are never visited. */
  lemma {:induction false} PlantLoopStops(pass: (Session, Json) -> (Outcome<Option<PlantValue>>, Session), s: Session,
                                          summaries: seq<Json>, j: nat)
    requires j <= |summaries|
    requires PlantLoop(pass, s, summaries[..j]).0.Fail?
    ensures PlantLoop(pass, s, summaries) == PlantLoop(pass, s, summaries[..j])
    decreases |summaries| - j
  {
    if j < |summaries| {
      assert summaries[..j + 1][..j] == summaries[..j];
      PlantLoopStops(pass, s, summaries, j + 1);
    } else {
      assert summaries[..j] == summaries;
    }
  }

  /** The plant loop of `listPlants`: each summary's plant fetched with its own
      retry. */
  function FetchPlants(env: Env, s: Session, summaries: seq<Json>): (r: (Outcome<seq<PlantValue>>, Session))
    ensures r.0.Ok? ==> |r.0.value| <= |summaries|
  {
    PlantLoop(SummaryPass(env), s, summaries)
  }

  /** The per-summary pass of this environment, as a value. */
  function SummaryPass(env: Env): (Session, Json) -> (Outcome<Option<PlantValue>>, Session)
  {
    (s', summary) => SummaryPlant(env, s', summary)
  }

  /** One pass of the plant loop: the summary's `id`, then `plant(id)` with
      its own retry. */
  function SummaryPlant(env: Env, s: Session, summary: Json): (r: (Outcome<Option<PlantValue>>, Session))
    ensures SummaryId(summary).Fail? ==> r == (Fail(SummaryId(summary).error), s)
  {
    match SummaryId(summary)
    case Fail(e) => (Fail(e), s)
    case Ok(id) => PlantCall(env, s, id, true)
  }

  /** One try of `listPlants`. */
  function ListPlantsAttempt(env: Env, s: Session): (r: (Outcome<seq<PlantValue>>, Session))
    ensures var (g, s1) := GetJson(env, s, PlantListPath);
            (g.Fail? ==> r == (Fail(g.error), s1))
            && (g.Ok? && PlantSummaries(g.value).Fail? ==> r == (Fail(PlantSummaries(g.value).error), s1))
            && (g.Ok? && PlantSummaries(g.value).Ok? ==> r == FetchPlants(env, s1, PlantSummaries(g.value).value))
  {
    var (o, s1) := GetJson(env, s, PlantListPath);
    match o
    case Fail(e) => (Fail(e), s1)
    case Ok(result) =>
      match PlantSummaries(result)
      case Fail(e) => (Fail(e), s1)
      case Ok(summaries) => FetchPlants(env, s1, summaries)
  }

  /** `listPlants(retry)`. */
  function ListPlantsCall(env: Env, s: Session, retry: bool): (r: (Outcome<seq<PlantValue>>, Session))
    ensures !ListPlantsAttempt(env, s).0.IsLoginError() ==> r == ListPlantsAttempt(env, s)
    ensures ListPlantsAttempt(env, s).0.IsLoginError() && !retry ==> r == (Ok([]), ListPlantsAttempt(env, s).1)
  {
    WithRetry(env, s' => ListPlantsAttempt(env, s'), [], s, retry)
  }

  /** One try of `complete_inverter`: the detail GET, then the in-place completion. */
  function CompleteAttempt(env: Env, s: Session, v: InverterValue): (r: (Outcome<()>, InverterValue, Session))
    ensures r.0.IsLoginError() ==> r.1 == v
    ensures r.2 == GetJson(env, s, InverterDetailPath + IntToString(v.id)).1
    ensures var g := GetJson(env, s, InverterDetailPath + IntToString(v.id)).0;
            (g.Fail? ==> r.0 == Fail(g.error) && r.1 == v)
            && (g.Ok? ==> (r.0, r.1) == Complete(v, g.value))
  {
    var (o, s1) := GetJson(env, s, InverterDetailPath + IntToString(v.id));
    match o
    case Fail(e) => (Fail(e), v, s1)
    case Ok(result) =>
      var (c, v1) := Complete(v, result);
      assert !c.IsLoginError();
      (c, v1, s1)
  }

  /** `complete_inverter(inverter, retry)`: the retry rule with "no change" as
      the fallback. */
  function CompleteCall(env: Env, s: Session, v: InverterValue, retry: bool): (r: (Outcome<()>, InverterValue, Session))
    ensures r.1.SameIdentity(v)
    ensures v.mppts <= r.1.mppts && v.phases <= r.1.phases
    decreases if retry then 1 else 0
  {
    var (o, v1, s1) := CompleteAttempt(env, s, v);
    if !o.IsLoginError() then (o, v1, s1)
    else if !retry then (Ok(()), v1, s1)
    else
      var (a, s2) := Authenticate(env, s1);
      if a.Fail? then (Fail(a.error), v1, s2)
      else CompleteCall(env, s2, v1, false)
  }

  /** The attempt of `complete_inverter` seen as an operation of the session
      alone, the completed value left aside. */
  function CompleteOutcome(env: Env, v: InverterValue): Session -> (Outcome<()>, Session)
  {
    s' => (CompleteAttempt(env, s', v).0, CompleteAttempt(env, s', v).2)
  }

  /** `complete_inverter` follows the same retry rule as every other operation,
      so the retry lemmas above apply to it. */
  lemma CompleteCallIsWithRetry(env: Env, s: Session, v: InverterValue, retry: bool)
    ensures (CompleteCall(env, s, v, retry).0, CompleteCall(env, s, v, retry).2)
         == WithRetry(env, CompleteOutcome(env, v), (), s, retry)
    decreases if retry then 1 else 0
  {
    var a := CompleteAttempt(env, s, v);
    if a.0.IsLoginError() && retry {
      var (l, s2) := Authenticate(env, a.2);
      if l.Ok? {
        CompleteCallIsWithRetry(env, s2, v, false);
      }
    }
  }

  /** A LoginError on the retry of `complete_inverter` leaves the inverter as it
      was: it is not completed. */
  lemma CompleteCallSecondLoginError(env: Env, s: Session, v: InverterValue)
    requires CompleteAttempt(env, s, v).0.IsLoginError()
    requires Authenticate(env, CompleteAttempt(env, s, v).2).0.Ok?
    requires CompleteAttempt(env, Authenticate(env, CompleteAttempt(env, s, v).2).1, v).0.IsLoginError()
    ensures CompleteCall(env, s, v, true).0 == Ok(())
    ensures CompleteCall(env, s, v, true).1 == v
  {
  }

  /** An exception of `complete_inverter` other than LoginError is not caught,
      and the assignments made before it stay. */
  lemma CompleteCallOtherErrorsPassThrough(env: Env, s: Session, v: InverterValue, retry: bool)
    requires CompleteAttempt(env, s, v).0.Fail? && !CompleteAttempt(env, s, v).0.error.LoginError?
    ensures CompleteCall(env, s, v, retry) == CompleteAttempt(env, s, v)
  {
  }
}
