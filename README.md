# The value codec of gspreadsheet_fdw, in Dafny

gspreadsheet_fdw is a PostgreSQL foreign data wrapper. Its `datatypes.py` converts values in both directions:

- `to_python(value, oid)` turns the wire text of a column into a Python value, using the column's PostgreSQL type oid.
- `to_postgres(value)` (also exported as `adapt`) turns a Python value into a `(text, oid)` pair.

Both work through two global tables:

- `OID_MAP` maps an oid to a *descriptor class*.
- `TYPE_MAP` maps an exact Python type to a descriptor's `to_postgres`.

A metaclass fills both tables as each descriptor class is defined.

The project models that registry and every descriptor, under Python 2 semantics:

- `str` is a byte string and `unicode` is text.
- `int` is a 64-bit C long; larger integers are `long`.
- Text is split with `str.split` and lower-cased with `str.lower()`.

Modules:

- `Wrappers`: `Option` and `Result` (an `Err` is a raised exception).
- `Strings`: the `str` operations the codecs use: `in`, `split`, `split(' ', 1)[1]` with its `IndexError` fallback, and `lower()`.
- `Decimal`: `int(text)`, `str(n)`, and zero-padded `%0Nd` text.
- `Utf8`: `unicode.encode('utf-8')` and strict `str.decode('utf-8')`.
- `Values`: the Python values that cross the codec, the exceptions, `str()` of each value, and the `(payload, oid)` result of an encoder.
- `Temporal`: the `Date`, `DateTime`, `DateTimeTz` and `Time` decoders. `MakeTime` is `datetime.time(h, m, s, us)`: an OverflowError when a field does not fit a C `int`, then its range check. `DecodeTime` is a method that reassigns its locals the way `Time.to_python` does.
- `Intervals`: `PgInterval` and `Interval`. `DecodeInterval` is a method that peels the year, month and day counts off one after the other. `DecodeAfterYears` and `DecodeAfterMonths` carry on from each step.
- `Descriptors`: one constructor per descriptor class. For each class it gives:
  - the oids and Python types the class lists;
  - whether it registers itself;
  - `_get_oid`;
  - its `to_python` (`DecodeWith`) and `to_postgres` (`EncodeWith`).
- `Registry`:
  - Functions over the tables as values, what defining a class does to them (`Define`), and the import-time tables.
  - A `Registry` class that holds `OID_MAP` and `TYPE_MAP` as map fields. Its methods update those fields in place, and its loops have invariants tied to those functions.
  - The lookups `get_type_by_oid` and `to_postgres` are `TypeByOid` and `ToPostgresIn`. What they give after import is stated by `UnregisteredOidIsText`, `RegisteredOids` and `EncodeDispatch`.

Some properties show how the registry behaves in practice:

- Unicode is defined after String and lists the same oids, so it owns 25 and 1043. AutoUnicode never registers, so text read at oid 25 stays bytes.
- An integer is written with oid 0. No class is registered for 0, so reading it back at that tag gives text; it comes back as an `int` only at 20, 21, 23 or 26 (ROWID inherits Integer's `int()`).
- Boolean writes `True`/`False`, which its own decoder refuses.
- A plain `timedelta` is written as `"<d> days <s> seconds <us> microseconds"`. Decoding that text keeps only the days.
- Interval text decoded into a `PgInterval` is written back out unchanged.

## Model

| member | source | states |
|---|---|---|
| Strings.AfterWordSpace | datatypes.py:260-263 | `split(' ', 1)[1]` of a space-free word, a space and a rest is exactly the rest |
| Decimal.IntRoundTrip | datatypes.py:121-122 | `int(str(n)) == n` for every integer, negative ones included |
| Decimal.SpaceAfterSign | datatypes.py:121-122 | `int()` skips white space between the sign and the digits: `int("- 5") == -5` |
| Utf8.RoundTrip | datatypes.py:157-170 | decoding the UTF-8 bytes of any text gives the text back |
| Temporal.DateRoundTrip | datatypes.py:179-181 | `Date.to_python` reads `str(date)` back as the same date |
| Temporal.DateTimeRoundTrip | datatypes.py:190-195 | `DateTime.to_python` reads `str(datetime)` back as the same timestamp, with and without microseconds |
| Temporal.DateTimeWithFraction | datatypes.py:192-195 | with a `.` the `%f` field is used: one to six digits, padded on the right to microseconds |
| Temporal.DateTimeTzPositiveOffset | datatypes.py:202-206 | everything from the first `+` is dropped and the timestamp before it is what is read |
| Temporal.DateTimeTzNegativeOffset | datatypes.py:204-206 | a `-` offset is not stripped, and the timestamp parse then fails |
| Temporal.DecodeTime | datatypes.py:215-224 | the step-by-step `Time.to_python` computes `TimeOf(value)`, on every input, errors included |
| Temporal.TimeReadsFractionAsInteger | datatypes.py:218-224 | the digits after `.` are the integer microsecond count handed to `datetime.time` (`.25` is 25 µs; a count past a C `int` is an OverflowError) |
| Temporal.TimeWithoutClock | datatypes.py:217-224 | text with neither `:` nor `.` decodes to midnight |
| Temporal.TimeFractionWithoutClock | datatypes.py:217-224 | with no `:` the clock is midnight and only the digits after the `.` count: `.5` is `time(0, 0, 0, 5)`, whatever stands before the `.` |
| Temporal.ClockDigitsDecoded | datatypes.py:222-224 | `a:b:c` of digit runs gives `time(a, b, c)`: an OverflowError when a field does not fit a C `int`, else accepted or refused by the range check |
| Temporal.TimeOutOfRange | datatypes.py:222-224 | an hour over 23, or a minute or second over 59, is a ValueError when every field is below 2^31, and an OverflowError when one is not |
| Temporal.TimeNeedsThreeFields | datatypes.py:222-223 | a clock with one colon (two fields) is a ValueError |
| Temporal.TimeRoundTrip | datatypes.py:215-224 | `Time.to_python` reads `time.isoformat()` back as the same time |
| Intervals.IntervalOf | datatypes.py:250-287 | a successful decode is a `PgInterval` whose `original_interval` is the input verbatim |
| Intervals.DecodeInterval | datatypes.py:250-287 | the step-by-step `Interval.to_python` computes `IntervalOf(value)` on every input, errors included |
| Intervals.DecodeAfterYears | datatypes.py:265-287 | the month step and everything after it computes `IntervalAfterYears`, errors included |
| Intervals.DecodeAfterMonths | datatypes.py:273-287 | the day step, the clock and the `PgInterval` compute `IntervalAfterMonths`, errors included |
| Intervals.PeelCount | datatypes.py:257-279 | one year/mon/day step: count 0 and text unchanged without the word; else exactly two pieces, `int()` of the first, and the text after the next space |
| Intervals.IntervalTextDecodes | datatypes.py:250-287 | verbose interval text with optional year, month and day counts and an optional clock decodes to `365*years + 31*months + days` days plus the clock, with the text kept |
| Intervals.TenYearsTenMonths | datatypes.py:256 | the example `10 years 10 mons 15 days 10:10:10` decodes to 3975 days and 36610 seconds |
| Intervals.SynthTextDecodesToDays | datatypes.py:246-281 | the text written for a plain timedelta decodes back with its days only: seconds and microseconds are lost |
| Descriptors.BoolOfCases | datatypes.py:296-303 | True exactly for `t`/`T`, False exactly for `f`/`F`, otherwise an error carrying the lowered text |
| Descriptors.BooleanTextIsNotBoolInput | datatypes.py:290-303 | a bool encodes as `("True"/"False", 16)`, and Boolean's decoder refuses that text |
| Descriptors.IntegerRoundTrip | datatypes.py:116-122 | an `int` encodes as `(str(n), 0)` and Integer's decoder reads it back as the same `int` |
| Descriptors.IntegerBeyondMachine | datatypes.py:121-122 | decimal text beyond a C long decodes to a `long` |
| Descriptors.PassThroughDecode | datatypes.py:87-89 | the base `to_python`, inherited by String and Unicode, returns the text unchanged |
| Descriptors.BaseEncodeTag | datatypes.py:91-100 | the base `to_postgres` succeeds exactly when `str(value)` does, and gives `(str(value), first oid or 0)`, with 0 for Integer, ROWID and String |
| Descriptors.UnicodeRoundTrip | datatypes.py:157-170 | Unicode encodes text as `(utf8 bytes, 25)`; AutoUnicode's decoder gives the text back |
| Descriptors.TemporalEncode | datatypes.py:91-100 | Date, DateTime and Time encode as their ISO text tagged with their one oid |
| Descriptors.DateDescriptorRoundTrip | datatypes.py:173-181 | a date encodes as `(YYYY-MM-DD, 1082)` and Date's decoder reads it back |
| Descriptors.DateTimeDescriptorRoundTrip | datatypes.py:184-195 | a timestamp encodes as `(str(dt), 1114)` and DateTime's decoder reads it back |
| Descriptors.DateTimeTzDescriptorReads | datatypes.py:198-206 | DateTimeTz's decoder reads `str(dt) + "+" + zone` as `dt` |
| Descriptors.TimeDescriptorRoundTrip | datatypes.py:209-224 | a time encodes as `(isoformat, 1083)` and Time's decoder reads it back |
| Descriptors.IntervalTextRoundTrip | datatypes.py:243-245 | a decoded interval encodes back to exactly its input text, tagged 1186 |
| Descriptors.TimeDeltaEncode | datatypes.py:246-247 | a plain timedelta encodes as `"<days> days <seconds> seconds <us> microseconds"`, tagged 1186 |
| Descriptors.IntervalWithoutText | datatypes.py:227-245 | a `PgInterval` with no `original_interval` encodes as `(None, 1186)` |
| Registry.Assign | datatypes.py:78-80 | every listed key maps to the class; every other key keeps its presence and value |
| Registry.BuiltinTablesContents | datatypes.py:61-80 | defining the built-in classes in file order leaves exactly the 14 oid entries and 10 type entries listed |
| Registry.LastOidDefinitionWins | datatypes.py:78-80 | an oid belongs to the last registering class that lists it |
| Registry.LastTypeDefinitionWins | datatypes.py:63-73 | a type's adapter is the last registering class that lists the type |
| Registry.UnlistedOidUntouched | datatypes.py:78-80 | an oid no registering class lists keeps its presence and value |
| Registry.UnlistedTypeUntouched | datatypes.py:63-73 | a Python type no registering class lists keeps its adapter, or its absence |
| Registry.UnicodeOwnsTextOids | datatypes.py:153-170 | after import, oids 25 and 1043 belong to Unicode, not String or AutoUnicode |
| Registry.UnregisteredOidIsText | datatypes.py:316-322 | after import, a missing oid or None decodes as String: the text comes back unchanged |
| Registry.RegisteredOids | datatypes.py:110-303 | after import, an oid is registered exactly when it is one of the 14 listed |
| Registry.EncodeDispatch | datatypes.py:306-311 | after import, None, `long` and other classes have no adapter (NotSupportedError); `bool` goes to Boolean; timedelta and PgInterval go to Interval |
| Registry.IntegerThroughTables | datatypes.py:110-122 | after import, `int` n encodes as `(str(n), 0)`; read at 0 it stays text, and at 20/21/23 (Integer) or 26 (ROWID) it is n |
| Registry.FloatThroughTables | datatypes.py:131-139 | after import, a float encodes as `(its text, 700)`, and 700/701 give back a float carrying the same literal |
| Registry.StrThroughTables | datatypes.py:142-150 | after import, a byte string encodes as `(s, 0)`, and None, 0, 25 and 1043 give it back |
| Registry.UnicodeThroughTables | datatypes.py:153-170 | after import, text encodes as `(utf8 bytes, 25)`, and oid 25 gives back the bytes, not the text |
| Registry.BooleanThroughTables | datatypes.py:290-303 | after import, a bool encodes as `("True"/"False", 16)`; oid 16 refuses that text and accepts `t`/`f` |
| Registry.DateThroughTables | datatypes.py:173-181 | after import, a date encodes at 1082 and decodes back equal |
| Registry.DateTimeThroughTables | datatypes.py:184-195 | after import, a timestamp encodes at 1114 and decodes back equal |
| Registry.TimestampTzThroughTables | datatypes.py:198-206 | after import, at 1184 a timestamp with `+zone` reads as the timestamp |
| Registry.TimeThroughTables | datatypes.py:209-224 | after import, a time encodes at 1083 and decodes back equal |
| Registry.IntervalThroughTables | datatypes.py:236-287 | after import, interval text decoded at 1186 encodes back as the same text at 1186 |
| Registry.TimeDeltaThroughTables | datatypes.py:243-287 | after import, a timedelta encodes at 1186; decoding that text keeps only its days |
| Registry.Registry.constructor | datatypes.py:57-58 | both tables start empty |
| Registry.Registry.RegisterAdapter | datatypes.py:72-73 | `TYPE_MAP[cls] = adapter`, `OID_MAP` untouched |
| Registry.Registry.RegisterType | datatypes.py:78-80 | the loop leaves every listed oid mapped to the class and nothing else changed |
| Registry.Registry.DefineClass | datatypes.py:63-69 | the metaclass step: for a registering class, adapters for its types and then its oids; otherwise nothing |
| Registry.Registry.RegisterBuiltins | datatypes.py:103-303 | defining the descriptor classes in file order has the effect of `DefineAll` over them |
| Registry.Registry.ToPython | datatypes.py:316-318 | module `to_python` decodes with the class for the oid, String when none |
| Registry.Import | datatypes.py:57-303 | importing the module leaves the tables equal to the built-in tables of `BuiltinTablesContents` |

## Left out

- `gspreadsheet_fdw/__init__.py` (the Multicorn shell: OAuth2, gspread network calls) and `setup.py` are not part of this model.
- The oid reference comments (datatypes.py:1-43) are used only for the oids the classes list.
- `new_type` (datatypes.py:75-76) builds classes at run time and is not called here. The registry's adapters are modelled as the descriptor whose `to_postgres` was registered, so arbitrary adapter callables are left out.
- The metaclass and `abc.ABCMeta` mechanics are replaced by an explicit sequence of class definitions. The sequence includes `PyPQDataType`, which registers nothing. The unused `pytz`, `ctypes` and `collections` imports are left out.
- Registry.FloatThroughTables: Python 2.7's `str(float)` keeps only 12 significant digits, so `float(str(x)) == x` fails for many floats; the model carries the float's literal text, and the round trip it proves holds only of that literal.
- Float: no float numerics. A float is carried as its literal text. `Float.to_python` returns that text as a float value without checking that `float()` accepts it, and `str()` of a float is its literal.
- Date and DateTime: `strptime` is modelled as its fixed layout: four-digit year, two-digit fields, one space, one to six `%f` digits. Its leniency is not modelled: it also accepts one-digit fields, a space-padded day, and one or more white-space characters where the format has its single space. Like the model, it refuses leading and trailing white space.
- `int()` is modelled on ASCII text only: optional white space, an optional sign, optional white space, one or more decimal digits, optional white space.
- `str()` of time-zone-aware values is not modelled: every timestamp is naive, since `DateTimeTz` drops the zone.
- UTF-8: the model text is a sequence of code points, so lone surrogates cannot occur. Python 2's acceptance of encoded surrogates is not modelled.
- `str()` of an object of another class is whatever its `__str__` returns, carried in the value.
- The platform is assumed to be 64-bit: `sys.maxint` is 2^63 - 1.
- `Interval.to_postgres` on an object that has a `.days` attribute but is neither a timedelta nor a `PgInterval` is not reachable through `TYPE_MAP`; its direct call is modelled as an AttributeError.
- A `PgInterval` built directly (not decoded) has `original_interval = None` (datatypes.py:231). The model encodes it as `(None, 1186)`, as the code does.
- `Temporal.DecodeTime` and `Intervals.DecodeInterval` are stated against their specification functions. Python's exceptions are `Err` results, not control flow.
