/**
 * The pure helpers of the API client (sunweg/api.py): the value/unit splitter,
 * the situation-code mapping, request headers and the classification of an
 * HTTP response into a payload, a login error or an API error.
 */
module Api {
  import opened Options
  import opened Text
  import opened Json
  import opened Util

  // ---------------------------------------------------------------------------
  // Endpoints (sunweg/const.py)

  const SunwegUrl := "https://api.sunweg.net/v2/"
  const LoginPath := "login/autenticacao"
  const PlantListPath :=
    "getpaineloperacao?procurar=&integrador=&franqueado=&manutencao=&portal=&alarme=&"
    + "planos=%5B0,1,2,3,4%5D&status=%5B1,2,3,4,5%5D&limite=100&situacao=&paginaAtual=1"
  const PlantDetailPath := "viewresumov2?agrupado=false&id="
  const InverterDetailPath := "inversores/view?id="
  const MonthStatsPath := "usinas/graficomes?"

  // ---------------------------------------------------------------------------
  // convert_situation_status

  /** The situation code of a string: 0 is an error, 1 is fine, anything else a warning. */
  function ConvertSituationStatus(situation: int): (s: Status)
    ensures s == ERROR <==> situation == 0
    ensures s == OK <==> situation == 1
    ensures s == WARN <==> situation != 0 && situation != 1
  {
    if situation == 0 then ERROR
    else if situation == 1 then OK
    else WARN
  }

  /** The two encodings of a status code, the situation mapping and the direct
      ordinal construction, agree on code 2 only. */
  lemma StatusEncodingsDisagree(code: int)
    requires 0 <= code <= 2
    ensures FromOrdinal(code).Some?
    ensures ConvertSituationStatus(code) == FromOrdinal(code).value <==> code == 2
  {
  }

  // ---------------------------------------------------------------------------
  // separate_value_metric

  /** `float(token.replace(",", "."))`: a comma or a point is the decimal mark. */
  function ValueOf(token: string): (r: Outcome<real>)
    ensures r.Fail? ==> r.error == Malformed(BadNumber(DecimalPoint(token)))
  {
    FloatOfText(DecimalPoint(token))
  }

  /** Splits a vendor reading such as "0,2 kW" at single spaces into a value and
      a unit. An absent or empty text is zero in the default unit; a single
      token is the value in the default unit; otherwise the value is the first
      token and the unit the second (the other way round when `metricBefore`),
      and any further token is ignored. An unreadable value token raises. */
  function SeparateValueMetric(valueWithMetric: Option<string>, defaultMetric: string := "", metricBefore: bool := false)
    : (r: Outcome<(real, string)>)
    ensures valueWithMetric.None? || valueWithMetric == Some("") ==> r == Ok((0.0, defaultMetric))
    ensures r.Ok? ==> r.value.1 == defaultMetric || ' ' !in r.value.1
    ensures r.Fail? ==> r.error.Malformed? && r.error.problem.BadNumber?
  {
    if valueWithMetric.None? || |valueWithMetric.value| == 0 then Ok((0.0, defaultMetric))
    else
      var split := Split(valueWithMetric.value, ' ');
      var valueToken := if metricBefore && |split| >= 2 then split[1] else split[0];
      var metric := if |split| < 2 then defaultMetric else if metricBefore then split[0] else split[1];
      match ValueOf(valueToken)
      case Ok(x) => Ok((x, metric))
      case Fail(e) => Fail(e)
  }

  /** A single token is the value, in the default unit, whatever the order flag. */
  lemma ValueMetricSingleToken(w: string, d: string, metricBefore: bool)
    requires w != "" && ' ' !in w
    ensures ValueOf(w).Ok? ==> SeparateValueMetric(Some(w), d, metricBefore) == Ok((ValueOf(w).value, d))
    ensures ValueOf(w).Fail? ==> SeparateValueMetric(Some(w), d, metricBefore) == Fail(ValueOf(w).error)
  {
    SplitNoSeparator(w, ' ');
  }

  /** "value unit" (or "unit value" with `metricBefore`) gives back the value and the unit. */
  lemma ValueMetricPair(w: string, u: string, d: string)
    requires ' ' !in w && ' ' !in u
    ensures ValueOf(w).Ok? ==> SeparateValueMetric(Some(w + " " + u), d, false) == Ok((ValueOf(w).value, u))
    ensures ValueOf(w).Ok? ==> SeparateValueMetric(Some(u + " " + w), d, true) == Ok((ValueOf(w).value, u))
    ensures ValueOf(w).Fail? ==> SeparateValueMetric(Some(w + " " + u), d, false) == Fail(ValueOf(w).error)
    ensures ValueOf(w).Fail? ==> SeparateValueMetric(Some(u + " " + w), d, true) == Fail(ValueOf(w).error)
  {
    SplitFirst(w, ' ', u);
    SplitNoSeparator(u, ' ');
    assert Split(w + " " + u, ' ') == [w, u];
    SplitFirst(u, ' ', w);
    SplitNoSeparator(w, ' ');
    assert Split(u + " " + w, ' ') == [u, w];
  }

  /** Tokens after the second one never change the result. */
  lemma ValueMetricIgnoresRest(a: string, b: string, rest: string, d: string, metricBefore: bool)
    requires ' ' !in a && ' ' !in b
    ensures SeparateValueMetric(Some(a + " " + b + " " + rest), d, metricBefore)
         == SeparateValueMetric(Some(a + " " + b), d, metricBefore)
  {
    SplitFirst(a, ' ', b + " " + rest);
    assert a + " " + b + " " + rest == a + [' '] + (b + [' '] + rest);
    SplitFirst(b, ' ', rest);
    SplitFirst(a, ' ', b);
    SplitNoSeparator(b, ' ');
    assert a + " " + b == a + [' '] + b;
  }

  /** A decimal comma and a decimal point give the same reading. */
  lemma ValueMetricCommaOrPoint(w: string, u: string, d: string, metricBefore: bool)
    requires ' ' !in w && ' ' !in u
    ensures ' ' !in DecimalPoint(w)
    ensures SeparateValueMetric(Some(w + " " + u), d, false)
         == SeparateValueMetric(Some(DecimalPoint(w) + " " + u), d, false)
    ensures SeparateValueMetric(Some(u + " " + w), d, true)
         == SeparateValueMetric(Some(u + " " + DecimalPoint(w)), d, true)
  {
    assert ' ' !in DecimalPoint(w) by {
      forall k | 0 <= k < |w| ensures DecimalPoint(w)[k] != ' ' {
        assert w[k] != ' ';
      }
    }
    DecimalPointIdempotent(w);
    assert ValueOf(DecimalPoint(w)) == ValueOf(w);
    ValueMetricPair(w, u, d);
    ValueMetricPair(DecimalPoint(w), u, d);
  }

  /** An integer printed in front of a unit reads back as that integer and unit. */
  lemma ValueMetricOfRenderedInteger(n: int, u: string, d: string)
    requires ' ' !in u
    ensures SeparateValueMetric(Some(IntToString(n) + " " + u), d) == Ok((n as real, u))
  {
    var w := IntToString(n);
    assert forall k :: 0 <= k < |w| ==> w[k] != ' ' && w[k] != ',' by {
      assert !IsDigit(' ') && !IsDigit(',');
      if n < 0 {
        assert forall k :: 1 <= k < |w| ==> w[k] == w[1..][k - 1];
      }
    }
    assert DecimalPoint(w) == w;
    ParseFloatOfIntToString(n);
    ValueMetricPair(w, u, d);
  }

  // ---------------------------------------------------------------------------
  // _headers

  function HeaderValue(headers: seq<(string, string)>, name: string): Option<string>
  {
    if headers == [] then None
    else if headers[0].0 == name then Some(headers[0].1)
    else HeaderValue(headers[1..], name)
  }

  /** Every request is JSON; a held token is sent as the token-refresh header. */
  function Headers(token: Option<string>): (h: seq<(string, string)>)
    ensures HeaderValue(h, "Content-Type") == Some("application/json")
    ensures HeaderValue(h, "X-Auth-Token-Update") == token
  {
    match token
    case None => [("Content-Type", "application/json")]
    case Some(t) => [("Content-Type", "application/json"), ("X-Auth-Token-Update", t)]
  }

  // ---------------------------------------------------------------------------
  // Requests and responses

  datatype Request =
    | GetRequest(url: string, headers: seq<(string, string)>)
    | PostRequest(url: string, body: Json, headers: seq<(string, string)>)

  /** A response: its status code and its body decoded as JSON (None when the
      body is not JSON). */
  datatype Response = Response(statusCode: int, body: Option<Json>)

  /** The text of a failed request, as `"Request failed: %s" % response` prints it. */
  function RequestFailed(statusCode: int): (t: string)
    ensures |t| >= |"Request failed: <Response ["| + 2
    ensures "Request failed: <Response [" <= t && t[|t| - 2..] == "]>"
    ensures ParseInt(t[|"Request failed: <Response ["|..|t| - 2]) == Some(statusCode)
  {
    var code := IntToString(statusCode);
    var t := "Request failed: <Response [" + code + "]>";
    assert t[|"Request failed: <Response ["|..|t| - 2] == code;
    ParseIntOfIntToString(statusCode);
    t
  }

  /** The login request body: the username, the password and `rememberMe`, in
      this order. */
  function LoginBody(username: string, password: string): (b: Json)
    ensures Keys(b) == Ok(["usuario", "senha", "rememberMe"])
    ensures Get(b, "usuario") == Ok(JStr(username))
    ensures Get(b, "senha") == Ok(JStr(password))
    ensures Get(b, "rememberMe") == Ok(JBool(true))
  {
    var b := JObj([("usuario", JStr(username)), ("senha", JStr(password)), ("rememberMe", JBool(true))]);
    assert Keys(b).value == ["usuario", "senha", "rememberMe"];
    assert FindMember(b.members[2..], "rememberMe") == Some(JBool(true));
    assert FindMember(b.members[1..], "senha") == Some(JStr(password));
    assert FindMember(b.members[1..], "rememberMe") == Some(JBool(true));
    b
  }

  /** `_treat_response`: 401 is a login error, any other non-200 an API error
      with the request-failed text, and a 200 whose `success` is false an API
      error with the vendor's message, but only when `launchExceptionOnError`
      is set. Otherwise the decoded body is the payload. */
  function TreatResponse(response: Response, launchExceptionOnError: bool := true): (r: Outcome<Json>)
    ensures r.IsLoginError() <==> response.statusCode == 401
    ensures response.statusCode == 401 ==> r == Fail(LoginError(RequestFailed(401)))
    ensures response.statusCode != 200 && response.statusCode != 401
            ==> r == Fail(ApiError(JStr(RequestFailed(response.statusCode))))
    ensures r.Ok? ==> response.statusCode == 200 && response.body == Some(r.value)
    ensures r.Ok? && launchExceptionOnError ==> Get(r.value, "success").Ok? && Truthy(Get(r.value, "success").value)
    ensures response.statusCode == 200 && response.body.Some? && !launchExceptionOnError
            ==> r == Ok(response.body.value)
    ensures response.statusCode == 200 && response.body.Some? && launchExceptionOnError
            && Get(response.body.value, "success").Ok? && Truthy(Get(response.body.value, "success").value)
            ==> r == Ok(response.body.value)
    ensures response.statusCode == 200 && response.body.Some? && launchExceptionOnError
            && Get(response.body.value, "success").Ok? && !Truthy(Get(response.body.value, "success").value)
            && Get(response.body.value, "message").Ok?
            ==> r == Fail(ApiError(Get(response.body.value, "message").value))
  {
    if response.statusCode == 401 then Fail(LoginError(RequestFailed(401)))
    else if response.statusCode != 200 then Fail(ApiError(JStr(RequestFailed(response.statusCode))))
    else match response.body
      case None => Fail(Malformed(NotJson))
      case Some(result) =>
        if !launchExceptionOnError then Ok(result)
        else match Get(result, "success")
          case Fail(e) => Fail(e)
          case Ok(success) =>
            if Truthy(success) then Ok(result)
            else match Get(result, "message")
              case Fail(e) => Fail(e)
              case Ok(message) => Fail(ApiError(message))
  }
}
