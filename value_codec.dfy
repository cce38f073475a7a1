/** How the cache turns a value into the text it stores. The rule that
    matches first wins: a string or null is written as its own text, a
    date-time as its UTC ISO-8601 offset form, anything else as JSON.
    The ISO formatter and the JSON serialiser belong to other libraries;
    they are parameters here (`Formatters`), so only the choice between
    them and the normalisation to UTC are modelled. */
module ValueCodec {
  import opened Outcomes

  const UTC: string := "UTC"
  const NULL_TEXT: string := "null"

  /** A nanosecond within a second, as Java bounds it. */
  type Nano = n: int | 0 <= n < 1_000_000_000

  /** A zoned date-time as Java holds it: the local wall-clock second,
      the nanosecond within it, the zone's offset from UTC in seconds,
      and the zone's id. */
  datatype ZonedDateTime = ZonedDateTime(localSecond: int, nano: Nano, offsetSeconds: int, zone: string)

  /** Seconds since the epoch of the instant a date-time denotes. */
  function EpochSecond(z: ZonedDateTime): int {
    z.localSecond - z.offsetSeconds
  }

  predicate SameInstant(a: ZonedDateTime, b: ZonedDateTime) {
    EpochSecond(a) == EpochSecond(b) && a.nano == b.nano
  }

  /** `withZoneSameInstant(ZoneId.of("UTC"))`: the same instant seen in UTC. */
  function ToUtc(z: ZonedDateTime): (u: ZonedDateTime)
    ensures SameInstant(u, z)
    ensures u.offsetSeconds == 0 && u.zone == UTC
  {
    ZonedDateTime(EpochSecond(z), z.nano, 0, UTC)
  }

  /** A value handed to `store`; `O` stands for every other Java object. */
  datatype Value<O> = Null | Text(text: string) | DateTime(dateTime: ZonedDateTime) | Other(obj: O)

  /** The two foreign encoders: ISO_OFFSET_DATE_TIME formatting, and JSON
      serialisation, which may fail (None stands for a
      JsonProcessingException). */
  datatype Formatters<!O> = Formatters(isoOffset: ZonedDateTime -> string, toJson: O -> Option<string>)

  /** The payload `store` writes for a value, or the serialisation error. */
  function Encode<O>(v: Value<O>, fmt: Formatters<O>): (r: Result<string>)
    ensures r.Failure? ==> r.error == SerializationError
  {
    match v
    case Null => Success(NULL_TEXT)
    case Text(s) => Success(s)
    case DateTime(z) => Success(fmt.isoOffset(ToUtc(z)))
    case Other(o) =>
      match fmt.toJson(o)
      case Some(json) => Success(json)
      case None => Failure(SerializationError)
  }

  /** Only an object the JSON serialiser rejects fails to encode; strings,
      null and date-times always encode. */
  lemma EncodeFailsOnlyForUnserializable<O>(v: Value<O>, fmt: Formatters<O>)
    ensures Encode(v, fmt).Failure? <==> v.Other? && fmt.toJson(v.obj).None?
  {
  }

  /** First match wins: a string or null is written verbatim whatever the
      foreign encoders do (a string is not JSON-quoted), and a date-time
      never reaches the JSON serialiser. */
  lemma EncodeConsultsOnlyTheMatchingRule<O>(
    s: string, z: ZonedDateTime, iso: ZonedDateTime -> string,
    fmt: Formatters<O>, json1: O -> Option<string>, json2: O -> Option<string>)
    ensures Encode(Text(s), fmt) == Success(s)
    ensures Encode(Null, fmt) == Success(NULL_TEXT)
    ensures Encode(DateTime(z), Formatters(iso, json1)) == Encode(DateTime(z), Formatters(iso, json2))
  {
  }

  /** A date-time's payload depends only on its instant, not on the zone
      it was given in. */
  lemma EncodeZoneIndependent<O>(a: ZonedDateTime, b: ZonedDateTime, fmt: Formatters<O>)
    requires SameInstant(a, b)
    ensures Encode(DateTime(a), fmt) == Encode(DateTime(b), fmt)
  {
  }

  /** Encoding forgets the type: null and the four-letter string "null"
      are stored identically, so a reader cannot tell them apart. */
  lemma NullAndNullTextCollide<O>(fmt: Formatters<O>)
    ensures Encode(Null, fmt) == Encode(Text(NULL_TEXT), fmt)
  {
  }
}
