/** The temporal descriptors' decoders: `Date`, `DateTime` (timestamp), `DateTimeTz`
    (timestamp with time zone) and `Time`. The first three read the fixed layouts that
    their `strptime` formats describe; `Time` splits its text by hand. */
module Temporal {
  import opened Wrappers
  import opened Strings
  import opened Decimal
  import opened Values

  /** `%Y-%m-%d`: four, two and two digits, then the calendar check of `datetime.date`. */
  function ReadDate(s: string): Result<PyDate, Error>
  {
    if |s| == 10 && s[4] == '-' && s[7] == '-'
      && AllDigits(s[..4]) && AllDigits(s[5..7]) && AllDigits(s[8..])
    then
      var d := Date(DigitsValue(s[..4]), DigitsValue(s[5..7]), DigitsValue(s[8..]));
      if ValidDate(d) then Ok(d) else Err(ValueError)
    else Err(ValueError)
  }

  /** `%H:%M:%S`: two digits each, then the range check of `datetime.time`. */
  function ReadClock(s: string, microsecond: int): Result<PyTime, Error>
  {
    if |s| == 8 && s[2] == ':' && s[5] == ':'
      && AllDigits(s[..2]) && AllDigits(s[3..5]) && AllDigits(s[6..])
    then
      var t := Time(DigitsValue(s[..2]), DigitsValue(s[3..5]), DigitsValue(s[6..]), microsecond);
      if ValidTime(t) then Ok(t) else Err(ValueError)
    else Err(ValueError)
  }

  /** What `strptime`'s `%f` makes of its one to six digits: they are padded on the
      right with zeros to six digits, so `.25` is 250000 microseconds. */
  function FractionMicros(f: string): nat
    requires AllDigits(f) && |f| <= 6
  {
    DigitsValue(f + Zeros(6 - |f|))
  }

  /** `Date.to_python`: `datetime.strptime(value, '%Y-%m-%d').date()`. */
  function DateOf(value: string): Result<PyDate, Error>
  {
    ReadDate(value)
  }

  /** `DateTime.to_python`: the format is `%Y-%m-%d %H:%M:%S`, with `.%f` appended
      when the text contains a `.`. */
  function DateTimeOf(value: string): Result<DateTime, Error>
  {
    if Contains(value, ".") then
      if 21 <= |value| <= 26 && value[10] == ' ' && value[19] == '.' && AllDigits(value[20..]) then
        var d :- ReadDate(value[..10]);
        var t :- ReadClock(value[11..19], FractionMicros(value[20..]));
        Ok(DateTime(d, t))
      else Err(ValueError)
    else if |value| == 19 && value[10] == ' ' then
      var d :- ReadDate(value[..10]);
      var t :- ReadClock(value[11..19], 0);
      Ok(DateTime(d, t))
    else Err(ValueError)
  }

  /** `DateTimeTz.to_python`: everything from the first `+` on is dropped and the rest
      is read as a timestamp. A `-` offset is not dropped. */
  function DateTimeTzOf(value: string): Result<DateTime, Error>
  {
    DateTimeOf(Split(value, "+")[0])
  }

  /** The clock text of `Time.to_python` and its microseconds: when there is a `.`,
      the text must split into exactly two pieces and the second is read by `int()`. */
  function SplitFraction(value: string): Result<(string, int), Error>
  {
    if Contains(value, ".") then
      var parts := Split(value, ".");
      if |parts| != 2 then Err(ValueError)
      else
        match ParseInt(parts[1])
        case None => Err(ValueError)
        case Some(us) => Ok((parts[0], us))
    else Ok((value, 0))
  }

  /** Hour, minute and second of `Time.to_python`: with a `:`, exactly three pieces, each
      read by `int()`; without one, all zero. */
  function ClockFields(clock: string): Result<(int, int, int), Error>
  {
    if Contains(clock, ":") then
      var parts := Split(clock, ":");
      if |parts| == 3 && ParseInt(parts[0]).Some? && ParseInt(parts[1]).Some?
        && ParseInt(parts[2]).Some?
      then Ok((ParseInt(parts[0]).value, ParseInt(parts[1]).value, ParseInt(parts[2]).value))
      else Err(ValueError)
    else Ok((0, 0, 0))
  }

  /** Whether `n` fits the C `int` into which `datetime.time` parses each argument. */
  predicate IsCInt(n: int) {
    -0x8000_0000 <= n < 0x8000_0000
  }

  /** `datetime.time(h, m, s, us)`: the arguments are first parsed as C `int`s, an
      OverflowError when one does not fit, and then checked against their ranges, a
      ValueError when one is outside. */
  function MakeTime(h: int, m: int, s: int, us: int): (r: Result<PyTime, Error>)
    ensures r.Ok? <==> 0 <= h < 24 && 0 <= m < 60 && 0 <= s < 60 && 0 <= us < 1_000_000
    ensures r.Ok? ==> r.value == Time(h, m, s, us)
    ensures r == Err(OverflowError) <==> !(IsCInt(h) && IsCInt(m) && IsCInt(s) && IsCInt(us))
    ensures r.Err? ==> r.error == OverflowError || r.error == ValueError
  {
    if !(IsCInt(h) && IsCInt(m) && IsCInt(s) && IsCInt(us)) then Err(OverflowError)
    else
      var t := Time(h, m, s, us);
      if ValidTime(t) then Ok(t) else Err(ValueError)
  }

  /** `Time.to_python`. */
  function TimeOf(value: string): Result<PyTime, Error>
  {
    var cut :- SplitFraction(value);
    var hms :- ClockFields(cut.0);
    MakeTime(hms.0, hms.1, hms.2, cut.1)
  }

  /** `Time.to_python`, step by step as the source reassigns `value` and the fields. */
  method DecodeTime(value: string) returns (r: Result<PyTime, Error>)
    ensures r == TimeOf(value)
  {
    var h, m, s, ms := 0, 0, 0, 0;
    var rest := value;
    if Contains(rest, ".") {
      var parts := Split(rest, ".");
      if |parts| != 2 {
        return Err(ValueError);
      }
      rest := parts[0];
      var fraction := ParseInt(parts[1]);
      if fraction.None? {
        return Err(ValueError);
      }
      ms := fraction.value;
    }
    if Contains(rest, ":") {
      var parts := Split(rest, ":");
      if |parts| != 3 {
        return Err(ValueError);
      }
      var hour, minute, second := ParseInt(parts[0]), ParseInt(parts[1]), ParseInt(parts[2]);
      if hour.None? || minute.None? || second.None? {
        return Err(ValueError);
      }
      h, m, s := hour.value, minute.value, second.value;
    }
    r := MakeTime(h, m, s, ms);
  }

  // ---------------------------------------------------------------------------------
  // Properties

  lemma Pow10Values()
    ensures Pow10(2) == 100 && Pow10(4) == 10000 && Pow10(6) == 1_000_000
  {
  }

  /** The layout of `str(date)`. */
  lemma DateIsoLayout(d: PyDate)
    ensures var s := DateIso(d);
      |s| == 10 && s[4] == '-' && s[7] == '-' && s[..4] == Padded(d.year, 4)
      && s[5..7] == Padded(d.month, 2) && s[8..] == Padded(d.day, 2)
  {
    Pow10Values();
    PaddedValue(d.year, 4);
    PaddedValue(d.month, 2);
    PaddedValue(d.day, 2);
    var s := DateIso(d);
    assert s == Padded(d.year, 4) + "-" + Padded(d.month, 2) + "-" + Padded(d.day, 2);
    assert s[..4] == Padded(d.year, 4);
    assert s[5..7] == Padded(d.month, 2);
    assert s[8..] == Padded(d.day, 2);
  }

  /** The layout of `HH:MM:SS`. */
  lemma ClockIsoLayout(t: PyTime)
    ensures var s := ClockIso(t);
      |s| == 8 && s[2] == ':' && s[5] == ':' && s[..2] == Padded(t.hour, 2)
      && s[3..5] == Padded(t.minute, 2) && s[6..] == Padded(t.second, 2)
      && AllDigits(s[..2]) && AllDigits(s[3..5]) && AllDigits(s[6..])
  {
    var a, b, c := Padded(t.hour, 2), Padded(t.minute, 2), Padded(t.second, 2);
    var s := ClockIso(t);
    assert s == a + ":" + b + ":" + c;
    assert s[..2] == a;
    assert s[3..5] == b;
    assert s[6..] == c;
  }

  /** `str(date)` is digits and dashes. */
  lemma DateIsoChars(d: PyDate)
    ensures forall c :: c in DateIso(d) ==> IsDigit(c) || c == '-'
  {
    var a, b, c := Padded(d.year, 4), Padded(d.month, 2), Padded(d.day, 2);
    assert DateIso(d) == a + "-" + b + "-" + c;
  }

  /** `HH:MM:SS` is digits and colons. */
  lemma ClockIsoChars(t: PyTime)
    ensures forall c :: c in ClockIso(t) ==> IsDigit(c) || c == ':'
  {
    var a, b, c := Padded(t.hour, 2), Padded(t.minute, 2), Padded(t.second, 2);
    assert ClockIso(t) == a + ":" + b + ":" + c;
  }

  /** A timestamp without a `.` is cut at fixed columns: the date, one space, the clock. */
  lemma ReadWholeTimestamp(date: string, clock: string)
    requires |date| == 10 && |clock| == 8 && '.' !in date && '.' !in clock
    requires ReadDate(date).Ok? && ReadClock(clock, 0).Ok?
    ensures DateTimeOf(date + " " + clock)
      == Ok(DateTime(ReadDate(date).value, ReadClock(clock, 0).value))
  {
    var s := date + " " + clock;
    assert '.' !in s;
    AbsentCharNotContained(s, ".", '.');
    assert s[..10] == date && s[11..19] == clock;
  }

  /** A timestamp with a `.` at column 19 has its fraction read by `%f`. */
  lemma ReadFractionTimestamp(date: string, clock: string, f: string)
    requires |date| == 10 && |clock| == 8 && 1 <= |f| <= 6 && AllDigits(f)
    requires ReadDate(date).Ok? && ReadClock(clock, FractionMicros(f)).Ok?
    ensures DateTimeOf(date + " " + clock + "." + f)
      == Ok(DateTime(ReadDate(date).value, ReadClock(clock, FractionMicros(f)).value))
  {
    var s := date + " " + clock + "." + f;
    assert s[19..20] == ".";
    FindAtMost(s, ".", 19);
    assert s[..10] == date && s[11..19] == clock && s[20..] == f;
  }

  /** `date.isoformat()` is read back by `Date.to_python`. */
  lemma DateRoundTrip(d: PyDate)
    ensures DateOf(DateIso(d)) == Ok(d)
  {
    DateIsoLayout(d);
    Pow10Values();
    PaddedValue(d.year, 4);
    PaddedValue(d.month, 2);
    PaddedValue(d.day, 2);
  }

  /** The clock of a valid time is read back field by field by `ReadClock`. */
  lemma ReadClockIso(t: PyTime, us: int)
    ensures ReadClock(ClockIso(t), us)
      == if 0 <= us < 1_000_000 then Ok(Time(t.hour, t.minute, t.second, us)) else Err(ValueError)
  {
    ClockIsoLayout(t);
    Pow10Values();
    PaddedValue(t.hour, 2);
    PaddedValue(t.minute, 2);
    PaddedValue(t.second, 2);
  }

  /** `Time.to_python` reads `HH:MM:SS` back into its three fields. */
  lemma ClockFieldsIso(t: PyTime)
    ensures ClockFields(ClockIso(t)) == Ok((t.hour, t.minute, t.second))
  {
    var a, b, c := Padded(t.hour, 2), Padded(t.minute, 2), Padded(t.second, 2);
    var s := ClockIso(t);
    assert Split(s, ":") == [a, b, c] by {
      ThreeFields(a, b, c);
    }
    assert ParseInt(a) == Some(t.hour) && ParseInt(b) == Some(t.minute)
      && ParseInt(c) == Some(t.second) by {
      Pow10Values();
      PaddedRoundTrip(t.hour, 2);
      PaddedRoundTrip(t.minute, 2);
      PaddedRoundTrip(t.second, 2);
    }
  }

  /** `a:b:c` with no colon in the pieces splits into the three pieces. */
  lemma ThreeFields(a: string, b: string, c: string)
    requires ':' !in a && ':' !in b && ':' !in c
    ensures Contains(a + ":" + b + ":" + c, ":")
    ensures Split(a + ":" + b + ":" + c, ":") == [a, b, c]
  {
    var s := a + ":" + b + ":" + c;
    assert s == a + ":" + (b + ":" + c);
    FindAfter(a, ":", b + ":" + c);
    SplitCons(a, ":", b + ":" + c);
    AbsentCharNotContained(c, ":", ':');
    SplitTwo(b, ":", c);
  }

  /** `Time.to_python` in terms of its two stages. */
  lemma TimeOfPieces(value: string, clock: string, us: int, h: int, m: int, s: int)
    requires SplitFraction(value) == Ok((clock, us)) && ClockFields(clock) == Ok((h, m, s))
    ensures TimeOf(value) == MakeTime(h, m, s, us)
  {
  }

  /** A clock without `.` followed by `.` and digits splits into the clock and the
      number the digits write. */
  lemma SplitDigitFraction(clock: string, f: string)
    requires '.' !in clock && |f| > 0 && AllDigits(f)
    ensures SplitFraction(clock + "." + f) == Ok((clock, DigitsValue(f)))
  {
    FindAfter(clock, ".", f);
    AbsentCharNotContained(f, ".", '.');
    SplitTwo(clock, ".", f);
    ParseDigits(f);
  }

  /** `Time.to_python` takes the digits after the `.` as an integer count of
      microseconds: `HH:MM:SS.25` has 25 microseconds, not 250000, and a count past a
      C `int` is an OverflowError. */
  lemma TimeReadsFractionAsInteger(t: PyTime, f: string)
    requires |f| > 0 && AllDigits(f)
    ensures TimeOf(ClockIso(t) + "." + f) == MakeTime(t.hour, t.minute, t.second, DigitsValue(f))
    ensures DigitsValue(f) < 1_000_000 ==>
      TimeOf(ClockIso(t) + "." + f) == Ok(Time(t.hour, t.minute, t.second, DigitsValue(f)))
  {
    var clock := ClockIso(t);
    ClockIsoChars(t);
    SplitDigitFraction(clock, f);
    ClockFieldsIso(t);
    TimeOfPieces(clock + "." + f, clock, DigitsValue(f), t.hour, t.minute, t.second);
  }

  /** `str(time)` is read back by `Time.to_python`. */
  lemma TimeRoundTrip(t: PyTime)
    ensures TimeOf(TimeIso(t)) == Ok(t)
  {
    var iso := TimeIso(t);
    if t.microsecond == 0 {
      assert iso == ClockIso(t);
      TimeOfWholeSeconds(t);
    } else {
      var f := Padded(t.microsecond, 6);
      assert iso == ClockIso(t) + "." + f;
      assert DigitsValue(f) == t.microsecond by {
        Pow10Values();
        PaddedValue(t.microsecond, 6);
      }
      TimeReadsFractionAsInteger(t, f);
    }
  }

  /** `HH:MM:SS` alone is read back with no microseconds. */
  lemma TimeOfWholeSeconds(t: PyTime)
    ensures TimeOf(ClockIso(t)) == Ok(Time(t.hour, t.minute, t.second, 0))
  {
    assert SplitFraction(ClockIso(t)) == Ok((ClockIso(t), 0)) by {
      ClockIsoChars(t);
      AbsentCharNotContained(ClockIso(t), ".", '.');
    }
    ClockFieldsIso(t);
  }

  /** Without `:` or `.` the text is not looked at: the time is midnight. */
  lemma TimeWithoutClock(value: string)
    requires !Contains(value, ":") && !Contains(value, ".")
    ensures TimeOf(value) == Ok(Time(0, 0, 0, 0))
  {
  }

  /** Without `:` before the `.` only the fraction is read: `.5` is five microseconds
      past midnight, and whatever text stands before the `.` is ignored. */
  lemma TimeFractionWithoutClock(w: string, f: string)
    requires ':' !in w && '.' !in w && |f| > 0 && AllDigits(f)
    ensures TimeOf(w + "." + f) == MakeTime(0, 0, 0, DigitsValue(f))
    ensures DigitsValue(f) < 1_000_000 ==> TimeOf(w + "." + f) == Ok(Time(0, 0, 0, DigitsValue(f)))
  {
    SplitDigitFraction(w, f);
    AbsentCharNotContained(w, ":", ':');
    TimeOfPieces(w + "." + f, w, DigitsValue(f), 0, 0, 0);
  }

  /** Three runs of digits joined by colons are read as hour, minute and second, and
      `datetime.time` then accepts or refuses them. */
  lemma ClockDigitsDecoded(a: string, b: string, c: string)
    requires |a| > 0 && |b| > 0 && |c| > 0 && AllDigits(a) && AllDigits(b) && AllDigits(c)
    ensures TimeOf(a + ":" + b + ":" + c)
      == MakeTime(DigitsValue(a), DigitsValue(b), DigitsValue(c), 0)
  {
    var s := a + ":" + b + ":" + c;
    assert '.' !in s by {
      DigitsLackPunctuation(a);
      DigitsLackPunctuation(b);
      DigitsLackPunctuation(c);
    }
    NoFraction(s);
    DigitFields(a, b, c);
    TimeOfPieces(s, s, 0, DigitsValue(a), DigitsValue(b), DigitsValue(c));
  }

  /** A run of digits holds no `:` and no `.`. */
  lemma DigitsLackPunctuation(s: string)
    requires AllDigits(s)
    ensures ':' !in s && '.' !in s
  {
  }

  /** Text without `.` has no microseconds. */
  lemma NoFraction(s: string)
    requires '.' !in s
    ensures SplitFraction(s) == Ok((s, 0))
  {
    AbsentCharNotContained(s, ".", '.');
  }

  /** Three runs of digits joined by colons are three fields, each read by `int()`. */
  lemma DigitFields(a: string, b: string, c: string)
    requires |a| > 0 && |b| > 0 && |c| > 0 && AllDigits(a) && AllDigits(b) && AllDigits(c)
    ensures ClockFields(a + ":" + b + ":" + c) == Ok((DigitsValue(a), DigitsValue(b), DigitsValue(c)))
  {
    DigitsLackPunctuation(a);
    DigitsLackPunctuation(b);
    DigitsLackPunctuation(c);
    ThreeFields(a, b, c);
    ParseDigits(a);
    ParseDigits(b);
    ParseDigits(c);
  }

  /** An hour past 23, or a minute or second past 59, is a ValueError while every field
      fits a C `int`; a field from 2^31 up is an OverflowError. */
  lemma TimeOutOfRange(h: nat, m: nat, s: nat)
    requires h >= 24 || m >= 60 || s >= 60
    ensures TimeOf(NatToDecimal(h) + ":" + NatToDecimal(m) + ":" + NatToDecimal(s))
      == if h < 0x8000_0000 && m < 0x8000_0000 && s < 0x8000_0000 then Err(ValueError)
         else Err(OverflowError)
  {
    NatToDecimalValue(h);
    NatToDecimalValue(m);
    NatToDecimalValue(s);
    ClockDigitsDecoded(NatToDecimal(h), NatToDecimal(m), NatToDecimal(s));
    FieldsOutOfRange(h, m, s);
  }

  /** `datetime.time` on fields of which one is past its range. */
  lemma FieldsOutOfRange(h: nat, m: nat, s: nat)
    requires h >= 24 || m >= 60 || s >= 60
    ensures MakeTime(h, m, s, 0)
      == if h < 0x8000_0000 && m < 0x8000_0000 && s < 0x8000_0000 then Err(ValueError)
         else Err(OverflowError)
  {
  }

  /** With a colon the clock must have exactly three fields: `HH:MM` is a ValueError. */
  lemma TimeNeedsThreeFields(a: string, b: string)
    requires ':' !in a && ':' !in b && '.' !in a && '.' !in b
    ensures TimeOf(a + ":" + b) == Err(ValueError)
  {
    var s := a + ":" + b;
    assert '.' !in s;
    AbsentCharNotContained(s, ".", '.');
    FindAfter(a, ":", b);
    AbsentCharNotContained(b, ":", ':');
    SplitTwo(a, ":", b);
  }

  /** A timestamp with one to six fraction digits: `%f` pads them on the right. */
  lemma DateTimeWithFraction(d: PyDate, t: PyTime, f: string)
    requires 1 <= |f| <= 6 && AllDigits(f)
    ensures FractionMicros(f) < 1_000_000
    ensures DateTimeOf(DateIso(d) + " " + ClockIso(t) + "." + f)
      == Ok(DateTime(d, Time(t.hour, t.minute, t.second, FractionMicros(f))))
  {
    assert FractionMicros(f) < 1_000_000 by {
      DigitsBound(f + Zeros(6 - |f|));
      Pow10Values();
    }
    DateRoundTrip(d);
    ReadClockIso(t, FractionMicros(f));
    ReadFractionTimestamp(DateIso(d), ClockIso(t), f);
  }

  /** `str(datetime)` is read back by `DateTime.to_python`. */
  lemma DateTimeRoundTrip(dt: DateTime)
    ensures DateTimeOf(DateTimeIso(dt)) == Ok(dt)
  {
    var d, t := dt.date, dt.time;
    if t.microsecond == 0 {
      assert DateTimeIso(dt) == DateIso(d) + " " + ClockIso(t);
      DateIsoChars(d);
      ClockIsoChars(t);
      DateRoundTrip(d);
      ReadClockIso(t, 0);
      ReadWholeTimestamp(DateIso(d), ClockIso(t));
    } else {
      var f := Padded(t.microsecond, 6);
      assert FractionMicros(f) == t.microsecond by {
        Pow10Values();
        PaddedValue(t.microsecond, 6);
        assert f + Zeros(0) == f;
      }
      assert DateTimeIso(dt) == DateIso(d) + " " + ClockIso(t) + "." + f;
      DateTimeWithFraction(d, t, f);
    }
  }

  /** A `+HH` style offset is dropped: the timestamp before it is what is read. */
  lemma DateTimeTzPositiveOffset(dt: DateTime, zone: string)
    ensures DateTimeTzOf(DateTimeIso(dt) + "+" + zone) == Ok(dt)
  {
    var s := DateTimeIso(dt);
    TimestampChars(dt);
    SplitFirst(s, "+", zone);
    DateTimeRoundTrip(dt);
  }

  /** A `-HH` style offset is not dropped, and the timestamp parse then fails. */
  lemma DateTimeTzNegativeOffset(dt: DateTime, zone: string)
    requires '+' !in zone
    ensures DateTimeTzOf(DateTimeIso(dt) + "-" + zone).Err?
  {
    var s := DateTimeIso(dt) + "-" + zone;
    TimestampChars(dt);
    assert '+' !in s;
    AbsentCharNotContained(s, "+", '+');
    SplitNone(s, "+");
    var t := dt.time;
    ClockIsoLayout(t);
    DateIsoLayout(dt.date);
    if t.microsecond == 0 {
      assert s[19] == '-';
    } else {
      Pow10Values();
      PaddedValue(t.microsecond, 6);
      assert |s| >= 27;
    }
  }

  /** `str(datetime)` of a naive timestamp has no `+` in it, and no `.` without microseconds. */
  lemma TimestampChars(dt: DateTime)
    ensures '+' !in DateTimeIso(dt)
    ensures dt.time.microsecond == 0 ==> '.' !in DateTimeIso(dt)
    ensures |DateTimeIso(dt)| == if dt.time.microsecond == 0 then 19 else 26
  {
    var date, clock := DateIso(dt.date), ClockIso(dt.time);
    DateIsoChars(dt.date);
    ClockIsoChars(dt.time);
    if dt.time.microsecond == 0 {
      assert DateTimeIso(dt) == date + " " + clock;
    } else {
      var f := Padded(dt.time.microsecond, 6);
      assert DateTimeIso(dt) == date + " " + clock + "." + f;
      assert '+' !in f;
    }
  }
}
