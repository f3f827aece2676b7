/**
 * A decoded JSON value as the client sees it after `response.json()`, the
 * exceptions the client can raise, and the Python conversions (`obj[key]`,
 * truthiness, `float(...)`, `int(...)`) it applies to JSON values.
 */
module Json {
  import opened Options
  import opened Text

  /** An object keeps its members in document order (Python dicts are ordered). */
  datatype Json =
    | JNull
    | JBool(b: bool)
    | JInt(i: int)
    | JFloat(r: real)
    | JStr(s: string)
    | JArr(items: seq<Json>)
    | JObj(members: seq<(string, Json)>)

  /** What went wrong in a conversion that Python reports as KeyError, TypeError
      or ValueError: these are never caught by the client. */
  datatype Problem =
    | MissingKey(key: string)
    | WrongKind(expected: string)
    | BadNumber(text: string)
    | BadStatus(code: Json)
    | BadDate(text: string)
    | NotJson

  /** The exceptions of the client. `LoginError` is the subclass of
      `SunWegApiError` raised for HTTP 401; `ApiError` is any other
      `SunWegApiError`, carrying the exception's argument. */
  datatype Failure =
    | LoginError(reason: string)
    | ApiError(message: Json)
    | Malformed(problem: Problem)
  {
    /** `except SunWegApiError` catches both kinds of API error. */
    predicate IsSunWegApiError() { LoginError? || ApiError? }
  }

  /** A computation that either returns a value or raises. */
  datatype Outcome<+T> = Ok(value: T) | Fail(error: Failure)
  {
    predicate IsLoginError() { Fail? && error.LoginError? }

    predicate IsFailure() { Fail? }

    function PropagateFailure<U>(): Outcome<U>
      requires Fail?
    {
      Fail(error)
    }

    function Extract(): T
      requires Ok?
    {
      value
    }
  }

  // ---------------------------------------------------------------------------
  // obj[key]

  /** The value of the first member named `key`. */
  function FindMember(members: seq<(string, Json)>, key: string): Option<Json>
  {
    if members == [] then None
    else if members[0].0 == key then Some(members[0].1)
    else FindMember(members[1..], key)
  }

  /** A lookup finds a member exactly when one has that name, and then it
      finds the first such member. */
  lemma {:induction false} FindMemberFirst(members: seq<(string, Json)>, key: string)
    ensures FindMember(members, key).None? <==> forall k :: 0 <= k < |members| ==> members[k].0 != key
    ensures FindMember(members, key).Some? ==>
              exists k :: 0 <= k < |members| && members[k] == (key, FindMember(members, key).value)
                          && forall j :: 0 <= j < k ==> members[j].0 != key
  {
    if members != [] && members[0].0 != key {
      FindMemberFirst(members[1..], key);
      assert forall k :: 1 <= k < |members| ==> members[k] == members[1..][k - 1];
      if FindMember(members, key).Some? {
        var k :| 0 <= k < |members[1..]| && members[1..][k] == (key, FindMember(members, key).value)
                 && forall j :: 0 <= j < k ==> members[1..][j].0 != key;
        assert members[k + 1] == (key, FindMember(members, key).value);
        assert forall j :: 0 <= j < k + 1 ==> members[j].0 != key;
      }
    } else if members != [] {
      assert members[0] == (key, FindMember(members, key).value);
    }
  }

  /** `obj[key]`: KeyError for a missing member, TypeError for a non-object. */
  function Get(obj: Json, key: string): (r: Outcome<Json>)
    ensures r.Ok? ==> obj.JObj? && FindMember(obj.members, key) == Some(r.value)
    ensures !obj.JObj? ==> r == Fail(Malformed(WrongKind("object")))
    ensures obj.JObj? && FindMember(obj.members, key).None? ==> r == Fail(Malformed(MissingKey(key)))
  {
    match obj
    case JObj(members) =>
      (match FindMember(members, key)
       case Some(v) => Ok(v)
       case None => Fail(Malformed(MissingKey(key))))
    case _ => Fail(Malformed(WrongKind("object")))
  }

  /** `obj[k1][k2]`. */
  function Get2(obj: Json, k1: string, k2: string): (r: Outcome<Json>)
    ensures r.Fail? ==> r.error.Malformed?
  {
    match Get(obj, k1)
    case Fail(e) => Fail(e)
    case Ok(inner) => Get(inner, k2)
  }

  /** The member names of an object, in document order (`dict.keys()`). */
  function Keys(obj: Json): (r: Outcome<seq<string>>)
    ensures r.Fail? <==> !obj.JObj?
    ensures r.Fail? ==> r.error.Malformed?
    ensures r.Ok? ==> |r.value| == |obj.members| && forall k :: 0 <= k < |obj.members| ==> r.value[k] == obj.members[k].0
  {
    match obj
    case JObj(members) => Ok(seq(|members|, k requires 0 <= k < |members| => members[k].0))
    case _ => Fail(Malformed(WrongKind("object")))
  }

  /** `for x in j`: a list gives its items, an object its member names and a
      string its characters, each a JSON string; anything else raises. */
  function Items(j: Json): (r: Outcome<seq<Json>>)
    ensures r.Fail? <==> !(j.JArr? || j.JObj? || j.JStr?)
    ensures r.Fail? ==> r.error.Malformed?
    ensures j.JArr? ==> r == Ok(j.items)
    ensures j.JObj? ==> r.Ok? && |r.value| == |j.members|
                        && forall k :: 0 <= k < |j.members| ==> r.value[k] == JStr(j.members[k].0)
    ensures j.JStr? ==> r.Ok? && |r.value| == |j.s| && forall k :: 0 <= k < |j.s| ==> r.value[k] == JStr([j.s[k]])
    ensures r.Ok? && r.value == [] <==> !Truthy(j) && (j.JArr? || j.JObj? || j.JStr?)
  {
    match j
    case JArr(items) => Ok(items)
    case JObj(members) => Ok(seq(|members|, k requires 0 <= k < |members| => JStr(members[k].0)))
    case JStr(s) => Ok(seq(|s|, k requires 0 <= k < |s| => JStr([s[k]])))
    case _ => Fail(Malformed(WrongKind("iterable")))
  }

  /** A JSON array used where the client adds lists with `+`. */
  function AsList(j: Json): (r: Outcome<seq<Json>>)
    ensures r.Ok? <==> j.JArr?
    ensures r.Ok? ==> r.value == j.items
    ensures r.Fail? ==> r.error.Malformed?
  {
    match j
    case JArr(items) => Ok(items)
    case _ => Fail(Malformed(WrongKind("list")))
  }

  // ---------------------------------------------------------------------------
  // Python conversions of JSON values

  /** Python truthiness (`not x` is `!Truthy(x)`). */
  predicate Truthy(j: Json)
  {
    match j
    case JNull => false
    case JBool(b) => b
    case JInt(i) => i != 0
    case JFloat(r) => r != 0.0
    case JStr(s) => s != ""
    case JArr(items) => items != []
    case JObj(members) => members != []
  }

  /** A JSON string used where the client calls a `str` method on it. */
  function AsText(j: Json): (r: Outcome<string>)
    ensures r.Fail? ==> r.error.Malformed?
  {
    match j
    case JStr(s) => Ok(s)
    case _ => Fail(Malformed(WrongKind("str")))
  }

  /** The argument of `separate_value_metric` as the text it reads: null is
      None and a string is itself; an empty list or object passes the length
      test exactly as the empty string does, so it reads as ""; any other value
      raises (`len` of a number, `split` of a non-empty list or object). */
  function AsOptionalText(j: Json): (r: Outcome<Option<string>>)
    ensures r.Fail? ==> r.error.Malformed?
    ensures j.JNull? ==> r == Ok(None)
    ensures j.JStr? ==> r == Ok(Some(j.s))
    ensures (j.JArr? || j.JObj?) && !Truthy(j) ==> r == Ok(Some(""))
    ensures r.Ok? <==> j.JNull? || j.JStr? || ((j.JArr? || j.JObj?) && !Truthy(j))
  {
    match j
    case JNull => Ok(None)
    case JStr(s) => Ok(Some(s))
    case JArr(items) => if items == [] then Ok(Some("")) else Fail(Malformed(WrongKind("str | None")))
    case JObj(members) => if members == [] then Ok(Some("")) else Fail(Malformed(WrongKind("str | None")))
    case _ => Fail(Malformed(WrongKind("str | None")))
  }

  /** A JSON number stored as it is. */
  function AsNumber(j: Json): (r: Outcome<real>)
    ensures r.Fail? ==> r.error.Malformed?
  {
    match j
    case JInt(i) => Ok(i as real)
    case JFloat(r) => Ok(r)
    case _ => Fail(Malformed(WrongKind("number")))
  }

  /** A JSON integer stored as it is. */
  function AsInteger(j: Json): (r: Outcome<int>)
    ensures r.Fail? ==> r.error.Malformed?
  {
    match j
    case JInt(i) => Ok(i)
    case _ => Fail(Malformed(WrongKind("int")))
  }

  /** `float(text)`. */
  function FloatOfText(s: string): (r: Outcome<real>)
    ensures r.Ok? <==> ParseFloat(s).Some?
    ensures r.Fail? ==> r.error == Malformed(BadNumber(s))
  {
    match ParseFloat(s)
    case Some(x) => Ok(x)
    case None => Fail(Malformed(BadNumber(s)))
  }

  /** `float(j)` on a decoded JSON value. */
  function Float(j: Json): (r: Outcome<real>)
    ensures r.Fail? ==> r.error.Malformed?
    ensures j.JStr? ==> r == FloatOfText(j.s)
    ensures j.JInt? ==> r == Ok(j.i as real)
    ensures j.JFloat? ==> r == Ok(j.r)
  {
    match j
    case JInt(i) => Ok(i as real)
    case JFloat(x) => Ok(x)
    case JBool(b) => Ok(if b then 1.0 else 0.0)
    case JStr(s) => FloatOfText(s)
    case _ => Fail(Malformed(WrongKind("number or str")))
  }

  /** `float(text.replace(",", "."))`: a comma-decimal text read as a number. */
  function CommaFloat(j: Json): (r: Outcome<real>)
    ensures r.Fail? ==> r.error.Malformed?
    ensures j.JStr? ==> r == FloatOfText(DecimalPoint(j.s))
    ensures !j.JStr? ==> r.Fail?
  {
    match AsText(j)
    case Fail(e) => Fail(e)
    case Ok(s) => FloatOfText(DecimalPoint(s))
  }

  /** Truncation toward zero, as Python's `int(x)` does for a float. */
  function Truncate(x: real): (i: int)
    ensures (i as real) <= x < (i + 1) as real || (i - 1) as real < x <= i as real
    ensures x >= 0.0 ==> i == x.Floor
    ensures x < 0.0 ==> (i - 1) as real < x <= i as real
  {
    if x >= 0.0 then x.Floor else -((-x).Floor)
  }

  /** `int(j)` on a decoded JSON value. */
  function Int(j: Json): (r: Outcome<int>)
    ensures r.Fail? ==> r.error.Malformed?
    ensures j.JInt? ==> r == Ok(j.i)
    ensures j.JStr? ==> (r.Ok? <==> ParseInt(j.s).Some?)
  {
    match j
    case JInt(i) => Ok(i)
    case JFloat(x) => Ok(Truncate(x))
    case JBool(b) => Ok(if b then 1 else 0)
    case JStr(s) =>
      (match ParseInt(s)
       case Some(i) => Ok(i)
       case None => Fail(Malformed(BadNumber(s))))
    case _ => Fail(Malformed(WrongKind("number or str")))
  }
}
