/** The descriptor classes of the registry: the oids and the Python types each one
    lists, whether it registers itself, and its two codec operations, `to_python`
    (wire text to a value) and `to_postgres` (a value to a `(text, oid)` pair). */
module Descriptors {
  import opened Wrappers
  import opened Strings
  import opened Decimal
  import Utf8
  import opened Values
  import opened Temporal
  import opened Intervals

  /** One constructor per descriptor class; `Base` is `_PyPQDataType`/`PyPQDataType`. */
  datatype Descriptor =
    | Base | Integer | RowId | Float | String | Unicode | AutoUnicode
    | Date | DateTime | DateTimeTz | Time | Interval | Boolean

  /** The class attribute `oids`, inherited where the class does not set it. */
  function Oids(d: Descriptor): seq<int> {
    match d
    case Base => []
    case Integer => [20, 21, 23]
    case RowId => [26]
    case Float => [700, 701]
    case String => [25, 1043]
    case Unicode => [25, 1043]
    case AutoUnicode => [25, 1043]
    case Date => [1082]
    case DateTime => [1114]
    case DateTimeTz => [1184]
    case Time => [1083]
    case Interval => [IntervalOid]
    case Boolean => [16]
  }

  /** The class attribute `python_types`, inherited where the class does not set it. */
  function PythonTypes(d: Descriptor): seq<PyType> {
    match d
    case Integer => [IntType]
    case Float => [FloatType]
    case String => [StrType]
    case Unicode => [UnicodeType]
    case AutoUnicode => [UnicodeType]
    case Date => [DateType]
    case DateTime => [DateTimeType]
    case Time => [TimeType]
    case Interval => [TimeDeltaType, PgIntervalType]
    case Boolean => [BoolType]
    case _ => []
  }

  /** `auto_register`: only AutoUnicode opts out. */
  predicate AutoRegisters(d: Descriptor) {
    d != AutoUnicode
  }

  /** `_get_oid`: the first listed oid, or 0 when there is none; Integer (and so ROWID)
      and String (and so Unicode) always answer 0. */
  function BaseOid(d: Descriptor): (oid: int)
    ensures d in {Integer, RowId, String, Unicode, AutoUnicode} ==> oid == 0
    ensures d !in {Integer, RowId, String, Unicode, AutoUnicode} ==>
      oid == if |Oids(d)| > 0 then Oids(d)[0] else 0
  {
    match d
    case Integer => 0
    case RowId => 0
    case String => 0
    case Unicode => 0
    case AutoUnicode => 0
    case _ => FirstOr0(Oids(d))
  }

  function FirstOr0(oids: seq<int>): int {
    if |oids| > 0 then oids[0] else 0
  }

  /** `Boolean.to_python`: `t` and `f` after `lower()`, anything else is an error
      naming the lowered text. */
  function BoolOf(value: string): Result<bool, Error> {
    var lowered := Lower(value);
    if lowered == "t" then Ok(true)
    else if lowered == "f" then Ok(false)
    else Err(BoolError(lowered))
  }

  /** `to_python` of the descriptor, applied to wire text. */
  function DecodeWith(d: Descriptor, value: string): Result<PyValue, Error> {
    match d
    case Base => Ok(StrVal(value))
    case String => Ok(StrVal(value))
    case Unicode => Ok(StrVal(value))
    case Integer => IntegerOf(value)
    case RowId => IntegerOf(value)
    case Float => Ok(FloatVal(value))
    case AutoUnicode =>
      (match Utf8.Decode(value)
       case None => Err(UnicodeDecodeError)
       case Some(u) => Ok(UnicodeVal(u)))
    case Date =>
      var date :- DateOf(value);
      Ok(DateVal(date))
    case DateTime =>
      var dt :- DateTimeOf(value);
      Ok(DateTimeVal(dt))
    case DateTimeTz =>
      var dt :- DateTimeTzOf(value);
      Ok(DateTimeVal(dt))
    case Time =>
      var t :- TimeOf(value);
      Ok(TimeVal(t))
    case Interval => IntervalOf(value)
    case Boolean =>
      var b :- BoolOf(value);
      Ok(BoolVal(b))
  }

  /** `Integer.to_python`: `int(value)`. */
  function IntegerOf(value: string): (r: Result<PyValue, Error>)
    ensures r.Ok? <==> ParseInt(value).Some?
    ensures r.Ok? ==> r.value == IntegerValue(ParseInt(value).value)
    ensures r.Err? ==> r.error == ValueError
  {
    match ParseInt(value)
    case None => Err(ValueError)
    case Some(n) => Ok(IntegerValue(n))
  }

  /** The base `to_postgres`: `(str(value), _get_oid(value))`. */
  function BaseEncode(d: Descriptor, v: PyValue): Result<Encoded, Error> {
    var text :- PyStr(v);
    Ok(Encoded(StrVal(text), BaseOid(d)))
  }

  /** `Unicode.to_postgres`: UTF-8 bytes for a `unicode` value, anything else untouched;
      the oid is always 25. */
  function UnicodeEncode(v: PyValue): Encoded {
    match v
    case UnicodeVal(u) => Encoded(StrVal(Utf8.Encode(u)), 25)
    case _ => Encoded(v, 25)
  }

  /** `to_postgres` of the descriptor. */
  function EncodeWith(d: Descriptor, v: PyValue): Result<Encoded, Error> {
    match d
    case Unicode => Ok(UnicodeEncode(v))
    case AutoUnicode => Ok(UnicodeEncode(v))
    case Interval => IntervalToPostgres(v)
    case _ => BaseEncode(d, v)
  }

  // ---------------------------------------------------------------------------------
  // Properties of the individual descriptors

  /** `Boolean.to_python` gives True exactly for `t` and `T`, False exactly for `f` and
      `F`, and otherwise an error carrying the lowered text. */
  lemma BoolOfCases(value: string)
    ensures BoolOf(value) == Ok(true) <==> value == "t" || value == "T"
    ensures BoolOf(value) == Ok(false) <==> value == "f" || value == "F"
    ensures BoolOf(value).Err? <==> value !in {"t", "T", "f", "F"}
    ensures BoolOf(value).Err? ==> BoolOf(value).error == BoolError(Lower(value))
  {
    var lowered := Lower(value);
    if lowered == "t" || lowered == "f" {
      assert |value| == 1;
      assert value == [value[0]];
    }
    if value in {"t", "T", "f", "F"} {
      assert lowered == [LowerChar(value[0])];
    }
  }

  /** `Boolean.to_postgres` writes `str(b)`, which its own `to_python` refuses: the error
      names `true` or `false`. */
  lemma BooleanTextIsNotBoolInput(b: bool)
    ensures EncodeWith(Boolean, BoolVal(b)) == Ok(Encoded(StrVal(if b then "True" else "False"), 16))
    ensures DecodeWith(Boolean, if b then "True" else "False")
      == Err(BoolError(if b then "true" else "false"))
  {
    var text := if b then "True" else "False";
    assert Lower(text) == if b then "true" else "false";
  }

  /** `Integer.to_postgres` writes `str(n)` with oid 0, and `Integer.to_python` reads it
      back as the same `int`. */
  lemma IntegerRoundTrip(n: MachineInt)
    ensures EncodeWith(Integer, IntVal(n)) == Ok(Encoded(StrVal(IntToDecimal(n)), 0))
    ensures DecodeWith(Integer, IntToDecimal(n)) == Ok(IntVal(n))
  {
    IntRoundTrip(n);
  }

  /** Text naming an integer beyond a C long decodes to a `long`. */
  lemma IntegerBeyondMachine(n: int)
    requires n < MinInt || MaxInt < n
    ensures DecodeWith(Integer, IntToDecimal(n)) == Ok(LongVal(n))
  {
    IntRoundTrip(n);
  }

  /** The identity decoders: whatever the text, it comes back unchanged. */
  lemma PassThroughDecode(d: Descriptor, value: string)
    requires d in {Base, String, Unicode}
    ensures DecodeWith(d, value) == Ok(StrVal(value))
  {
  }

  /** The base encoder writes `str(value)` and tags it with the first listed oid, or 0
      when there is none and for Integer, ROWID and String. */
  lemma BaseEncodeTag(d: Descriptor, v: PyValue)
    requires d !in {Unicode, AutoUnicode, Interval}
    ensures EncodeWith(d, v).Ok? <==> PyStr(v).Ok?
    ensures EncodeWith(d, v).Ok? ==> EncodeWith(d, v).value == Encoded(StrVal(PyStr(v).value),
      if d in {Integer, RowId, String} || |Oids(d)| == 0 then 0 else Oids(d)[0])
  {
  }

  /** Unicode text goes out as its UTF-8 bytes with oid 25, and AutoUnicode reads those
      bytes back as the same text. */
  lemma UnicodeRoundTrip(u: string)
    ensures EncodeWith(Unicode, UnicodeVal(u)) == Ok(Encoded(StrVal(Utf8.Encode(u)), 25))
    ensures DecodeWith(AutoUnicode, Utf8.Encode(u)) == Ok(UnicodeVal(u))
  {
    Utf8.RoundTrip(u);
  }

  /** The base encoder on a date, a timestamp or a time writes its ISO text and tags it
      with the descriptor's one oid. */
  lemma TemporalEncode(d: Descriptor, v: PyValue)
    requires (d == Descriptor.Date && v.DateVal?) || (d == Descriptor.DateTime && v.DateTimeVal?)
      || (d == Descriptor.Time && v.TimeVal?)
    ensures EncodeWith(d, v) == Ok(Encoded(StrVal(
      match v
      case DateVal(date) => DateIso(date)
      case DateTimeVal(dt) => DateTimeIso(dt)
      case TimeVal(t) => TimeIso(t)
      case _ => ""), Oids(d)[0]))
  {
  }

  /** A date goes out as `YYYY-MM-DD` tagged 1082 and the Date decoder reads it back. */
  lemma DateDescriptorRoundTrip(d: PyDate)
    ensures EncodeWith(Descriptor.Date, DateVal(d)) == Ok(Encoded(StrVal(DateIso(d)), 1082))
    ensures DecodeWith(Descriptor.Date, DateIso(d)) == Ok(DateVal(d))
  {
    TemporalEncode(Descriptor.Date, DateVal(d));
    DateRoundTrip(d);
  }

  /** A timestamp goes out as `str(datetime)` tagged 1114 and the DateTime decoder reads
      it back. */
  lemma DateTimeDescriptorRoundTrip(dt: DateTime)
    ensures EncodeWith(Descriptor.DateTime, DateTimeVal(dt)) == Ok(Encoded(StrVal(DateTimeIso(dt)), 1114))
    ensures DecodeWith(Descriptor.DateTime, DateTimeIso(dt)) == Ok(DateTimeVal(dt))
  {
    TemporalEncode(Descriptor.DateTime, DateTimeVal(dt));
    DateTimeRoundTrip(dt);
  }

  /** The DateTimeTz decoder reads a timestamp with a `+zone` appended as the timestamp,
      dropping the zone. */
  lemma DateTimeTzDescriptorReads(dt: DateTime, zone: string)
    ensures DecodeWith(DateTimeTz, DateTimeIso(dt) + "+" + zone) == Ok(DateTimeVal(dt))
  {
    DateTimeTzPositiveOffset(dt, zone);
  }

  /** A time of day goes out as `time.isoformat()` tagged 1083 and the Time decoder reads
      it back. */
  lemma TimeDescriptorRoundTrip(t: PyTime)
    ensures EncodeWith(Descriptor.Time, TimeVal(t)) == Ok(Encoded(StrVal(TimeIso(t)), 1083))
    ensures DecodeWith(Descriptor.Time, TimeIso(t)) == Ok(TimeVal(t))
  {
    TemporalEncode(Descriptor.Time, TimeVal(t));
    TimeRoundTrip(t);
  }

  /** A decoded interval encodes back to exactly the text it was decoded from. */
  lemma IntervalTextRoundTrip(value: string)
    requires DecodeWith(Interval, value).Ok?
    ensures EncodeWith(Interval, DecodeWith(Interval, value).value)
      == Ok(Encoded(StrVal(value), IntervalOid))
  {
  }

  /** A plain timedelta is written out as days, seconds and microseconds, tagged 1186. */
  lemma TimeDeltaEncode(d: PyDelta)
    ensures EncodeWith(Interval, TimeDeltaVal(d)) == Ok(Encoded(StrVal(
      IntToDecimal(d.days) + " days " + IntToDecimal(d.seconds) + " seconds "
      + IntToDecimal(d.microseconds) + " microseconds"), IntervalOid))
  {
    var a, b, c := IntToDecimal(d.days), IntToDecimal(d.seconds), IntToDecimal(d.microseconds);
    Regroup(b, " seconds ", c + " microseconds");
    Regroup(b + " seconds ", c, " microseconds");
    Regroup(a, " days ", SynthSeconds(d));
    Regroup(a + " days ", b + " seconds " + c, " microseconds");
    Regroup(a + " days ", b + " seconds ", c);
    Regroup(a + " days ", b, " seconds ");
  }

  /** A `PgInterval` not made by decoding has no text, and encodes as `(None, 1186)`. */
  lemma IntervalWithoutText(delta: PyDelta)
    ensures EncodeWith(Interval, PgIntervalVal(delta, None)) == Ok(Encoded(NoneVal, IntervalOid))
  {
  }
}
