/**
 * The two coercers for fields whose JSON encoding changed across export
 * versions: a flag that is a boolean or a 0/1 integer, and a timestamp that
 * is epoch milliseconds or a formatted string. Each tries the candidate Go
 * types in a fixed order and falls back to a default instead of failing.
 */
module Coerce {
  import opened Wrappers

  /**
   * The shape of one raw field kept undecoded (Go's `json.RawMessage`).
   * `Integer` is an integer literal of any magnitude; `Other` is a number
   * with a fraction or exponent, an array or an object; `Absent` is the empty
   * message left by a missing field.
   */
  datatype RawValue =
    | Boolean(b: bool)
    | Integer(n: int)
    | Text(s: string)
    | Null
    | Other
    | Absent

  const MinInt64: int := -0x8000_0000_0000_0000
  const MaxInt64: int := 0x7fff_ffff_ffff_ffff
  const TwoTo64: int := 0x1_0000_0000_0000_0000

  predicate InInt64(n: int) {
    MinInt64 <= n <= MaxInt64
  }

  /** Two's-complement wrap-around of an `int64` product. */
  function Wrap64(x: int): (r: int)
    ensures InInt64(r)
    ensures InInt64(x) ==> r == x
    ensures (x - r) % TwoTo64 == 0
  {
    var k := (x - MinInt64) / TwoTo64;
    assert x - MinInt64 == k * TwoTo64 + (x - MinInt64) % TwoTo64;
    assert x - ((x - MinInt64) % TwoTo64 + MinInt64) == k * TwoTo64;
    (x - MinInt64) % TwoTo64 + MinInt64
  }

  /** A time zone (Go's `*time.Location`); the zone rules themselves are not modelled. */
  datatype Location = Local | UTC | Zone(name: string)

  /** An instant, as nanoseconds since the Unix epoch, shown in a location (Go's `time.Time`). */
  datatype Time = Time(unixNanos: int, loc: Location)

  /** Go's zero `time.Time`: January 1 of year 1, 00:00:00 UTC. */
  const ZeroUnixNanos: int := -62_135_596_800 * 1_000_000_000
  const ZeroTime := Time(ZeroUnixNanos, UTC)

  /** `time.Millisecond`, in nanoseconds. */
  const NanosPerMilli: int := 1_000_000

  /** The importer's time settings: the location and the layout of string timestamps. */
  datatype Settings = Settings(location: Location, dateFormat: string)

  /** `time.ParseInLocation(layout, value, loc)`, with `None` for a parse error. */
  type LayoutParser = (string, string, Location) -> Option<Time>

  /** `json.Unmarshal(raw, &b)` for a `bool b` starting at `false`: `None` when it reports an error. */
  function UnmarshalBool(v: RawValue): Option<bool> {
    match v
    case Boolean(b) => Some(b)
    case Null => Some(false)
    case _ => None
  }

  /**
   * `json.Unmarshal(raw, &i)` for a 64-bit integer starting at 0: an integer
   * literal out of range is an error, and `null` leaves the 0 in place.
   */
  function UnmarshalInt(v: RawValue): Option<int> {
    match v
    case Integer(n) => if InInt64(n) then Some(n) else None
    case Null => Some(0)
    case _ => None
  }

  /** `json.Unmarshal(raw, &s)` for a `string s` starting empty. */
  function UnmarshalString(v: RawValue): Option<string> {
    match v
    case Text(s) => Some(s)
    case Null => Some("")
    case _ => None
  }

  /** `parseBool`: as a boolean, else as an integer compared with zero, else false. */
  function ParseBool(v: RawValue): bool {
    match UnmarshalBool(v)
    case Some(b) => b
    case None =>
      match UnmarshalInt(v)
      case Some(i) => i != 0
      case None => false
  }

  /**
   * `parseTime`: as an integer it is epoch milliseconds, converted with
   * wrapping `int64` arithmetic and shown in the configured location; else as
   * a string it is parsed with the configured layout in that location, the
   * zero time when that fails; anything else is the zero time.
   */
  function ParseTime(s: Settings, raw: RawValue, parseIn: LayoutParser): Time {
    match UnmarshalInt(raw)
    case Some(ms) => Time(Wrap64(ms * NanosPerMilli), s.location)
    case None =>
      match UnmarshalString(raw)
      case Some(text) => parseIn(s.dateFormat, text, s.location).GetOr(ZeroTime)
      case None => ZeroTime
  }

  /** A flag is true exactly for JSON `true` and for a nonzero integer that fits 64 bits; `null` is false. */
  lemma ParseBoolShapes(v: RawValue)
    ensures ParseBool(v) <==> v == Boolean(true) || (v.Integer? && InInt64(v.n) && v.n != 0)
  {
  }

  /** The boolean examples the importer is expected to honour. */
  lemma ParseBoolExamples()
    ensures ParseBool(Boolean(true)) && ParseBool(Integer(1))
    ensures !ParseBool(Boolean(false)) && !ParseBool(Integer(0))
    ensures !ParseBool(Null) && !ParseBool(Absent) && !ParseBool(Text("true"))
  {
  }

  /** The timestamp coercion, shape by shape. */
  lemma ParseTimeShapes(s: Settings, raw: RawValue, parseIn: LayoutParser)
    ensures raw.Integer? && InInt64(raw.n) ==>
      ParseTime(s, raw, parseIn) == Time(Wrap64(raw.n * NanosPerMilli), s.location)
    ensures raw == Null ==> ParseTime(s, raw, parseIn) == Time(0, s.location)
    ensures raw.Text? ==> ParseTime(s, raw, parseIn) == parseIn(s.dateFormat, raw.s, s.location).GetOr(ZeroTime)
    ensures raw.Boolean? || raw.Other? || raw.Absent? || (raw.Integer? && !InInt64(raw.n)) ==>
      ParseTime(s, raw, parseIn) == ZeroTime
  {
  }

  /** The largest magnitude, in milliseconds, whose conversion to nanoseconds does not wrap. */
  const MaxExactMillis: int := MaxInt64 / NanosPerMilli

  /** Within about 292 years of the epoch the integer path gives the exact instant. */
  lemma EpochMillisExact(s: Settings, ms: int, parseIn: LayoutParser)
    requires -MaxExactMillis <= ms <= MaxExactMillis
    ensures ParseTime(s, Integer(ms), parseIn) == Time(ms * NanosPerMilli, s.location)
  {
    assert InInt64(ms * NanosPerMilli);
  }

  /** An integer timestamp gives the zero time exactly when it does not fit 64 bits. */
  lemma IntegerZeroTimeIffOutOfRange(s: Settings, n: int, parseIn: LayoutParser)
    ensures ParseTime(s, Integer(n), parseIn) == ZeroTime <==> !InInt64(n)
  {
  }

  /** `null` is read as 0 milliseconds: the Unix epoch, which is not the zero time. */
  lemma NullIsEpoch(s: Settings, parseIn: LayoutParser)
    ensures ParseTime(s, Null, parseIn) == Time(0, s.location)
    ensures ParseTime(s, Null, parseIn) != ZeroTime
  {
  }
}
