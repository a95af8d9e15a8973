/** The Python 2 values that cross the codec layer: their runtime types (the keys of the
    encode table), the values themselves, the exceptions the codecs raise, and `str()`
    for each kind of value, which the base encoder uses. */
module Values {
  import opened Wrappers
  import opened Decimal
  import Utf8

  /** `sys.maxint` on a 64-bit build: a Python 2 `int` is a C long; larger integers are `long`. */
  const MaxInt: int := 0x7FFF_FFFF_FFFF_FFFF
  const MinInt: int := -0x8000_0000_0000_0000

  type MachineInt = i: int | MinInt <= i <= MaxInt

  /** `datetime.date`, in the range the datetime module allows. */
  datatype Date = Date(year: int, month: int, day: int)

  predicate IsLeap(year: int) {
    year % 4 == 0 && (year % 100 != 0 || year % 400 == 0)
  }

  function DaysInMonth(year: int, month: int): int {
    if month == 2 then (if IsLeap(year) then 29 else 28)
    else if month == 4 || month == 6 || month == 9 || month == 11 then 30
    else 31
  }

  predicate ValidDate(d: Date) {
    1 <= d.year <= 9999 && 1 <= d.month <= 12 && 1 <= d.day <= DaysInMonth(d.year, d.month)
  }

  type PyDate = d: Date | ValidDate(d) witness Date(1, 1, 1)

  /** `datetime.time` without a time zone. */
  datatype Time = Time(hour: int, minute: int, second: int, microsecond: int)

  predicate ValidTime(t: Time) {
    0 <= t.hour < 24 && 0 <= t.minute < 60 && 0 <= t.second < 60 && 0 <= t.microsecond < 1_000_000
  }

  type PyTime = t: Time | ValidTime(t) witness Time(0, 0, 0, 0)

  /** `datetime.datetime` without a time zone: a date and a time of day. */
  datatype DateTime = DateTime(date: PyDate, time: PyTime)

  /** `datetime.timedelta` in its normalised form. */
  datatype Delta = Delta(days: int, seconds: int, microseconds: int)

  const MaxDeltaDays: int := 999_999_999

  predicate ValidDelta(d: Delta) {
    -MaxDeltaDays <= d.days <= MaxDeltaDays && 0 <= d.seconds < 86400
    && 0 <= d.microseconds < 1_000_000
  }

  type PyDelta = d: Delta | ValidDelta(d) witness Delta(0, 0, 0)

  /** The exact runtime type of a value, as `type(value)` gives it. */
  datatype PyType =
    | NoneType | IntType | LongType | BoolType | FloatType | StrType | UnicodeType
    | DateType | DateTimeType | TimeType | TimeDeltaType | PgIntervalType
    | OtherType(name: string)

  datatype PyValue =
    | NoneVal
    | IntVal(i: MachineInt)
    | LongVal(l: int)
    | BoolVal(b: bool)
      /** a float, known only through its literal text; float numerics are not modelled */
    | FloatVal(literal: string)
      /** a byte string (Python 2 `str`) */
    | StrVal(s: string)
      /** a text string (Python 2 `unicode`) */
    | UnicodeVal(u: string)
    | DateVal(date: PyDate)
    | DateTimeVal(dt: DateTime)
    | TimeVal(time: PyTime)
    | TimeDeltaVal(delta: PyDelta)
      /** `PgInterval`: a timedelta that also keeps the interval text it was decoded from */
    | PgIntervalVal(interval: PyDelta, original: Option<string>)
      /** an object of any other class, with what its `__str__` returns */
    | OtherVal(typeName: string, text: string)

  /** What an encoder returns: the tuple `(text, oid)`. The first element is usually a
      byte string, but an encoder may hand back another object unchanged (or None). */
  datatype Encoded = Encoded(payload: PyValue, oid: int)

  /** The exceptions of the codec layer. */
  datatype Error =
    | ValueError        // int(), strptime(), time() and tuple unpacking
    | OverflowError     // a timedelta past 999999999 days, a time() field past a C int
    | BoolError(value: string) // errors.Error('Cannot convert "<value>" to bool')
    | NotSupported(pyType: PyType) // errors.NotSupportedError('Cannot cast <type> to postgres type')
    | UnicodeEncodeError
    | UnicodeDecodeError
    | AttributeError    // Interval.to_postgres on a value without `.days`

  function TypeOf(v: PyValue): PyType {
    match v
    case NoneVal => NoneType
    case IntVal(_) => IntType
    case LongVal(_) => LongType
    case BoolVal(_) => BoolType
    case FloatVal(_) => FloatType
    case StrVal(_) => StrType
    case UnicodeVal(_) => UnicodeType
    case DateVal(_) => DateType
    case DateTimeVal(_) => DateTimeType
    case TimeVal(_) => TimeType
    case TimeDeltaVal(_) => TimeDeltaType
    case PgIntervalVal(_, _) => PgIntervalType
    case OtherVal(name, _) => OtherType(name)
  }

  /** The integer `int(text)` produces: an `int` when it fits a C long, else a `long`. */
  function IntegerValue(n: int): (v: PyValue)
    ensures v.IntVal? || v.LongVal?
  {
    if MinInt <= n <= MaxInt then IntVal(n) else LongVal(n)
  }

  /** `date.isoformat()`, which is also `str(date)`: `YYYY-MM-DD`. */
  function DateIso(d: PyDate): string {
    Padded(d.year, 4) + "-" + Padded(d.month, 2) + "-" + Padded(d.day, 2)
  }

  /** `HH:MM:SS` */
  function ClockIso(t: PyTime): string {
    Padded(t.hour, 2) + ":" + Padded(t.minute, 2) + ":" + Padded(t.second, 2)
  }

  /** `.ffffff` when there are microseconds, else nothing. */
  function FractionIso(microsecond: nat): string {
    if microsecond != 0 then "." + Padded(microsecond, 6) else ""
  }

  /** `time.isoformat()`, which is also `str(time)`. */
  function TimeIso(t: PyTime): string {
    ClockIso(t) + FractionIso(t.microsecond)
  }

  /** `str(datetime)`: the date, one space, the time. */
  function DateTimeIso(dt: DateTime): string {
    DateIso(dt.date) + " " + TimeIso(dt.time)
  }

  /** `str(timedelta)`: `[D day[s], ]H:MM:SS[.ffffff]`. */
  function DeltaStr(d: PyDelta): string {
    var clock := NatToDecimal(d.seconds / 3600) + ":" + Padded((d.seconds / 60) % 60, 2)
      + ":" + Padded(d.seconds % 60, 2);
    var dayPart :=
      if d.days == 0 then ""
      else IntToDecimal(d.days) + " day" + (if d.days == 1 || d.days == -1 then "" else "s") + ", ";
    dayPart + clock + FractionIso(d.microseconds)
  }

  /** `str(value)`. For a `unicode` value Python 2 encodes to ASCII first, which fails on
      any other character. */
  function PyStr(v: PyValue): Result<string, Error> {
    match v
    case NoneVal => Ok("None")
    case IntVal(i) => Ok(IntToDecimal(i))
    case LongVal(l) => Ok(IntToDecimal(l))
    case BoolVal(b) => Ok(if b then "True" else "False")
    case FloatVal(literal) => Ok(literal)
    case StrVal(s) => Ok(s)
    case UnicodeVal(u) => if Utf8.IsAscii(u) then Ok(u) else Err(UnicodeEncodeError)
    case DateVal(d) => Ok(DateIso(d))
    case DateTimeVal(dt) => Ok(DateTimeIso(dt))
    case TimeVal(t) => Ok(TimeIso(t))
    case TimeDeltaVal(d) => Ok(DeltaStr(d))
    case PgIntervalVal(d, _) => Ok(DeltaStr(d))
    case OtherVal(_, text) => Ok(text)
  }
}
