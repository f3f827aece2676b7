/** The status enum and the daily production record (sunweg/util.py). */
module Util {
  import opened Options
  import opened Json

  /** The domain status; its ordinals are OK = 0, ERROR = 1, WARN = 2. */
  datatype Status = OK | ERROR | WARN

  function Ordinal(s: Status): (n: nat)
    ensures n <= 2
  {
    match s
    case OK => 0
    case ERROR => 1
    case WARN => 2
  }

  /** Direct construction `Status(n)`: defined only for the three ordinals,
      a ValueError (None) for every other value. */
  function FromOrdinal(n: int): (r: Option<Status>)
    ensures r.Some? <==> 0 <= n <= 2
    ensures r.Some? ==> Ordinal(r.value) == n
  {
    if n == 0 then Some(OK)
    else if n == 1 then Some(ERROR)
    else if n == 2 then Some(WARN)
    else None
  }

  /** Ordinal and direct construction are inverse to each other. */
  lemma OrdinalRoundTrip(s: Status)
    ensures FromOrdinal(Ordinal(s)) == Some(s)
  {
  }

  /** `Status(x)` applied to a decoded JSON value: Enum lookup by value, so the
      integer ordinals, and the floats and booleans equal to them, are accepted. */
  function StatusOfJson(j: Json): (r: Outcome<Status>)
    ensures r.Fail? ==> r.error.Malformed?
    ensures j.JInt? ==> (r.Ok? <==> 0 <= j.i <= 2)
    ensures r.Ok? && j.JInt? ==> Ordinal(r.value) == j.i
    ensures j.JStr? || j.JNull? || j.JArr? || j.JObj? ==> r == Fail(Malformed(BadStatus(j)))
  {
    var code: Option<int> :=
      match j
      case JInt(i) => Some(i)
      case JBool(b) => Some(if b then 1 else 0)
      case JFloat(x) => if x == x.Floor as real then Some(x.Floor) else None
      case _ => None;
    if code.Some? && FromOrdinal(code.value).Some? then Ok(FromOrdinal(code.value).value)
    else Fail(Malformed(BadStatus(j)))
  }

  /** The calendar day of a ProductionStats record. */
  datatype Date = Date(year: int, month: int, day: int)

  /** What the date-time parser yields; `.date()` keeps its calendar day. */
  datatype DateTime = DateTime(year: int, month: int, day: int, hour: int, minute: int, second: int)
  {
    function Day(): (d: Date)
      ensures d.year == year && d.month == month && d.day == day
    {
      Date(year, month, day)
    }
  }

  /** Energy production of one day, in kWh, and what was expected. Its getters
      return exactly the constructor's arguments. */
  datatype ProductionStats = ProductionStats(date: Date, production: real, prognostic: real)
}
