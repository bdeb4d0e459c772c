/** The Python values the credential cache handles: datetimes, the JSON values
    `json.load` produces, and the exceptions that can be raised on the way. */
module Values {
  import opened Results

  /** A `datetime`, its time counted in integer ticks. A naive datetime has no
      time zone and only a wall-clock reading; an aware one denotes the UTC
      instant `instant` and is shown with the UTC offset `offset`. */
  datatype DateTime =
    | Naive(wall: int)
    | Aware(instant: int, offset: int)

  /** `dt.astimezone(timezone.utc)` for an aware `dt`: the same instant, shown in UTC.
      Normalising leaves every later comparison with an aware `now` as it was. */
  function AsUtc(instant: int, offset: int): (d: DateTime)
    ensures d.Aware? && d.offset == 0
    ensures forall now :: EarlierThan(now, d) == EarlierThan(now, Aware(instant, offset))
  {
    Aware(instant, 0)
  }

  /** A JSON string, classified by what `datetime.fromisoformat` makes of it:
      either text it accepts (a subset of ISO-8601), which it reads as `stamp`, or any
      other text, which it rejects with a ValueError. */
  datatype Text =
    | IsoStamp(stamp: DateTime)
    | Plain(chars: string)

  /** `dt.isoformat()`: the ISO-8601 text of a datetime. */
  function IsoFormat(d: DateTime): Text
  {
    IsoStamp(d)
  }

  /** A value as `json.load` returns it. Objects are dicts from string keys. */
  datatype Json =
    | JNull
    | JBool(b: bool)
    | JNumber(n: real)
    | JString(text: Text)
    | JArray(items: seq<Json>)
    | JObject(members: map<string, Json>)

  /** Why a TypeError was raised. */
  datatype TypeCause =
    | NotSubscriptableByKey   // `v[key]` on a list, string, number, bool or None
    | NotAString              // `fromisoformat` given something other than a str
    | NaiveAwareComparison    // `<` between an aware and a naive datetime

  /** The exceptions, built-in and of send_metrics.py, that the core raises or catches. */
  datatype Exception =
    | FileNotFoundError
    | OSError                 // any other failure of `open`: PermissionError, IsADirectoryError, ...
    | UnicodeDecodeError      // a subclass of ValueError
    | JSONDecodeError         // a subclass of ValueError
    | RecursionError          // a RuntimeError, not a ValueError
    | KeyError(key: string)
    | ValueError(message: string)
    | TypeError(cause: TypeCause)
    | CognitoCredentialError
    | SaveCredentialsError
    | CreateCognitoclientError
    | GetDiskUsageError
    | SendMetricError

  /** `isinstance(e, ValueError)` */
  predicate IsValueError(e: Exception)
  {
    e.ValueError? || e.JSONDecodeError? || e.UnicodeDecodeError?
  }

  /** `v[key]` on a value returned by `json.load`. */
  function Subscript(v: Json, key: string): Result<Json, Exception>
  {
    match v
    case JObject(m) => if key in m then Ok(m[key]) else Err(KeyError(key))
    case _ => Err(TypeError(NotSubscriptableByKey))
  }

  /** `datetime.fromisoformat(v)` */
  function FromIsoFormat(v: Json): Result<DateTime, Exception>
  {
    match v
    case JString(IsoStamp(d)) => Ok(d)
    case JString(Plain(s)) => Err(ValueError("Invalid isoformat string: '" + s + "'"))
    case _ => Err(TypeError(NotAString))
  }

  /** `now < d`, where `now` is an aware datetime at the UTC instant `now`. */
  function EarlierThan(now: int, d: DateTime): Result<bool, Exception>
  {
    match d
    case Naive(_) => Err(TypeError(NaiveAwareComparison))
    case Aware(instant, _) => Ok(now < instant)
  }

  /** Comparing with an aware datetime looks only at the instant it denotes, never at
      the offset it is shown with. */
  lemma ComparisonIgnoresOffset(now: int, instant: int, offset1: int, offset2: int)
    ensures EarlierThan(now, Aware(instant, offset1)) == EarlierThan(now, Aware(instant, offset2))
  {
  }
}
