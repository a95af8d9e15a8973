/** The `Interval` descriptor and `PgInterval`: decoding PostgreSQL's verbose interval
    text into a timedelta that keeps the text, and encoding a timedelta back. */
module Intervals {
  import opened Wrappers
  import opened Strings
  import opened Decimal
  import opened Values
  import opened Temporal

  const IntervalOid: int := 1186

  /** One step of `Interval.to_python` for `unit` in `year`, `mon`, `day`: when the word
      occurs, the text must split on ` <unit>` into exactly two pieces, the first is the
      count read by `int()`, and the text goes on after the first space of the second
      piece (or is empty when there is none). Without the word the count is 0. */
  function Peel(value: string, unit: string): Result<(int, string), Error>
    requires |unit| > 0
  {
    if !Contains(value, unit) then Ok((0, value))
    else
      var parts := Split(value, " " + unit);
      if |parts| != 2 then Err(ValueError)
      else
        match ParseInt(parts[0])
        case None => Err(ValueError)
        case Some(n) => Ok((n, AfterFirstSpace(parts[1])))
  }

  /** `PgInterval(days, hours=.., minutes=.., seconds=.., microseconds=..)` with its
      `original_interval` set: the clock fields fold into the seconds of the day, and
      `timedelta` raises OverflowError past 999999999 days. */
  function MakeInterval(days: int, t: PyTime, original: string): (r: Result<PyValue, Error>)
    ensures r.Ok? <==> -MaxDeltaDays <= days <= MaxDeltaDays
    ensures r.Ok? ==> r.value == PgIntervalVal(
      Delta(days, t.hour * 3600 + t.minute * 60 + t.second, t.microsecond), Some(original))
  {
    if -MaxDeltaDays <= days <= MaxDeltaDays then
      Ok(PgIntervalVal(Delta(days, t.hour * 3600 + t.minute * 60 + t.second, t.microsecond),
                       Some(original)))
    else Err(OverflowError)
  }

  /** `Interval.to_python`: a year count, a month count and a day count are peeled off in
      turn, what is left is read by `Time.to_python`, and the calendar is folded into
      days as 365 days a year and 31 days a month. The result keeps the text verbatim. */
  function IntervalOf(value: string): (r: Result<PyValue, Error>)
    ensures r.Ok? ==> r.value.PgIntervalVal? && r.value.original == Some(value)
  {
    var years :- Peel(value, "year");
    IntervalAfterYears(value, years.0, years.1)
  }

  /** `Interval.to_python` once the year count is off and `rest` is what remains. */
  function IntervalAfterYears(value: string, years: int, rest: string): (r: Result<PyValue, Error>)
    ensures r.Ok? ==> r.value.PgIntervalVal? && r.value.original == Some(value)
  {
    var months :- Peel(rest, "mon");
    IntervalAfterMonths(value, years, months.0, months.1)
  }

  /** `Interval.to_python` once the year and month counts are off. */
  function IntervalAfterMonths(value: string, years: int, months: int, rest: string)
    : (r: Result<PyValue, Error>)
    ensures r.Ok? ==> r.value.PgIntervalVal? && r.value.original == Some(value)
  {
    var days :- Peel(rest, "day");
    var t :- TimeOf(days.1);
    MakeInterval(365 * years + 31 * months + days.0, t, value)
  }

  /** `Interval.to_python`, step by step as the source reassigns `value`. */
  method DecodeInterval(value: string) returns (r: Result<PyValue, Error>)
    ensures r == IntervalOf(value)
  {
    var years := PeelCount(value, "year");
    if years.Err? {
      return Err(years.error);
    }
    r := DecodeAfterYears(value, years.value.0, years.value.1);
  }

  /** The month step and what follows it. */
  method DecodeAfterYears(value: string, years: int, rest: string) returns (r: Result<PyValue, Error>)
    ensures r == IntervalAfterYears(value, years, rest)
  {
    var months := PeelCount(rest, "mon");
    if months.Err? {
      return Err(months.error);
    }
    r := DecodeAfterMonths(value, years, months.value.0, months.value.1);
  }

  /** The day step, the clock, and the `PgInterval` built from them. */
  method DecodeAfterMonths(value: string, years: int, months: int, rest: string)
    returns (r: Result<PyValue, Error>)
    ensures r == IntervalAfterMonths(value, years, months, rest)
  {
    var days := PeelCount(rest, "day");
    if days.Err? {
      return Err(days.error);
    }
    var time := DecodeTime(days.value.1);
    if time.Err? {
      return Err(time.error);
    }
    r := MakeInterval(365 * years + 31 * months + days.value.0, time.value, value);
  }

  /** One of the three `if '<unit>' in value:` blocks of `Interval.to_python`. */
  method PeelCount(value: string, unit: string) returns (r: Result<(int, string), Error>)
    requires |unit| > 0
    ensures r == Peel(value, unit)
  {
    if !Contains(value, unit) {
      return Ok((0, value));
    }
    var parts := Split(value, " " + unit);
    if |parts| != 2 {
      return Err(ValueError);
    }
    var n := ParseInt(parts[0]);
    if n.None? {
      return Err(ValueError);
    }
    r := Ok((n.value, AfterFirstSpace(parts[1])));
  }

  /** `IntervalOf` read as the chain of its steps. */
  lemma IntervalSteps(value: string, years: int, afterYears: string, months: int,
                      afterMonths: string, days: int, rest: string)
    requires Peel(value, "year") == Ok((years, afterYears))
    requires Peel(afterYears, "mon") == Ok((months, afterMonths))
    requires Peel(afterMonths, "day") == Ok((days, rest))
    ensures TimeOf(rest).Err? ==> IntervalOf(value) == Err(TimeOf(rest).error)
    ensures TimeOf(rest).Ok? ==>
      IntervalOf(value) == MakeInterval(365 * years + 31 * months + days, TimeOf(rest).value, value)
  {
  }

  /** The text `Interval.to_postgres` makes for a plain timedelta. */
  function SynthText(d: PyDelta): string {
    IntToDecimal(d.days) + (" days " + SynthSeconds(d))
  }

  /** What follows the day count in `SynthText`. */
  function SynthSeconds(d: PyDelta): string {
    IntToDecimal(d.seconds) + (" seconds " + (IntToDecimal(d.microseconds) + " microseconds"))
  }

  /** `Interval.to_postgres`: a `PgInterval` hands back its `original_interval` (None when
      it was not decoded from text), a plain timedelta is written out in days, seconds
      and microseconds; both are tagged 1186. Anything else has no `.days`. */
  function IntervalToPostgres(v: PyValue): Result<Encoded, Error>
  {
    match v
    case PgIntervalVal(_, original) =>
      Ok(Encoded(if original.Some? then StrVal(original.value) else NoneVal, IntervalOid))
    case TimeDeltaVal(d) => Ok(Encoded(StrVal(SynthText(d)), IntervalOid))
    case _ => Err(AttributeError)
  }

  // ---------------------------------------------------------------------------------
  // The interval text PostgreSQL writes, and what decoding makes of it

  /** `n year` or `n years` (and likewise for `mon` and `day`). */
  function UnitText(n: int, word: string): string {
    IntToDecimal(n) + " " + word + (if n == 1 then "" else "s")
  }

  /** A component, then a space and the rest when there is a rest. */
  function Component(n: Option<int>, word: string, rest: string): string {
    match n
    case None => rest
    case Some(k) => UnitText(k, word) + (if rest == "" then "" else " " + rest)
  }

  /** Interval text of the verbose form: optional year, month and day components, then
      an optional `HH:MM:SS[.ffffff]` clock. */
  function IntervalText(years: Option<int>, months: Option<int>, days: Option<int>,
                        clock: Option<PyTime>): string
  {
    Component(years, "year", Component(months, "mon", Component(days, "day", ClockText(clock))))
  }

  function CountOf(n: Option<int>): int {
    if n.Some? then n.value else 0
  }

  /** The characters of a clock text are digits, `:` and `.`. */
  lemma TimeIsoChars(t: PyTime)
    ensures forall c :: c in TimeIso(t) ==> IsDigit(c) || c == ':' || c == '.'
  {
    ClockIsoChars(t);
    var s := ClockIso(t);
    assert forall c :: c in s ==> IsDigit(c) || c == ':';
  }

  /** An occurrence of `w` in `s` shows every later suffix of `w` occurring too. */
  lemma ContainsSuffix(s: string, w: string)
    requires |w| > 1 && Contains(s, w)
    ensures Contains(s, w[1..])
  {
    var j := Find(s, w).value;
    assert s[j + 1..j + |w|] == w[1..];
    assert OccursAt(s, w[1..], j + 1);
    FindAtMost(s, w[1..], j + 1);
  }

  /** Peeling a component that is there gives its count and the rest; peeling one that
      is absent gives 0 and the text unchanged. `c` is a letter of the unit word that
      appears nowhere in the rest. */
  lemma PeelComponent(n: Option<int>, word: string, rest: string, c: char)
    requires |word| > 0 && c in word && c !in rest
    requires c != 's' && c != ' ' && c != '-' && !IsDigit(c)
    ensures Peel(Component(n, word, rest), word) == Ok((CountOf(n), rest))
  {
    match n
    case None =>
      AbsentCharNotContained(rest, word, c);
    case Some(k) =>
      PeelPresent(k, word, rest, c);
  }

  lemma PeelPresent(k: int, word: string, rest: string, c: char)
    requires |word| > 0 && c in word && c !in rest
    requires c != 's' && c != ' ' && c != '-' && !IsDigit(c)
    ensures Peel(UnitText(k, word) + (if rest == "" then "" else " " + rest), word) == Ok((k, rest))
  {
    var digits := IntToDecimal(k);
    var tail := (if k == 1 then "" else "s") + (if rest == "" then "" else " " + rest);
    var v := UnitText(k, word) + (if rest == "" then "" else " " + rest);
    assert v == digits + (" " + word) + tail;
    IntToDecimalChars(k);
    UnitSplits(digits, word, tail, c);
    IntRoundTrip(k);
    PluralThenRest(k, rest);
  }

  /** The unit word occurs, and splitting on it leaves the count and the tail. */
  lemma UnitSplits(digits: string, word: string, tail: string, c: char)
    requires |word| > 0 && c in word && c !in tail && ' ' !in digits && c != ' '
    ensures Contains(digits + (" " + word) + tail, word)
    ensures Split(digits + (" " + word) + tail, " " + word) == [digits, tail]
  {
    var unit := " " + word;
    var v := digits + unit + tail;
    FindAfter(digits, unit, tail);
    ContainsSuffix(v, unit);
    assert unit[1..] == word;
    AbsentCharNotContained(tail, unit, c);
    SplitTwo(digits, unit, tail);
  }

  /** After the plural `s` (if any) comes a space and the rest, or nothing. */
  lemma PluralThenRest(k: int, rest: string)
    ensures AfterFirstSpace((if k == 1 then "" else "s") + (if rest == "" then "" else " " + rest)) == rest
  {
    var plural := if k == 1 then "" else "s";
    if rest == "" {
      assert plural + "" == plural;
      AbsentCharNotContained(plural, " ", ' ');
    } else {
      assert plural + (" " + rest) == plural + " " + rest;
      AfterWordSpace(plural, rest);
    }
  }

  /** A letter that is not in the unit word and not in the rest is not in the component. */
  lemma ComponentLacks(n: Option<int>, word: string, rest: string, c: char)
    requires c !in word && c !in rest && c != 's' && c != ' ' && c != '-' && !IsDigit(c)
    ensures c !in Component(n, word, rest)
  {
    if n.Some? {
      IntToDecimalChars(n.value);
    }
  }

  /** The text of an optional clock. */
  function ClockText(clock: Option<PyTime>): string {
    if clock.Some? then TimeIso(clock.value) else ""
  }

  /** The time an optional clock stands for: midnight when there is none. */
  function ClockTime(clock: Option<PyTime>): PyTime {
    if clock.Some? then clock.value else Time(0, 0, 0, 0)
  }

  /** The clock text reads back as its time and holds none of the unit letters. */
  lemma ClockTextDecodes(clock: Option<PyTime>)
    ensures TimeOf(ClockText(clock)) == Ok(ClockTime(clock))
    ensures 'd' !in ClockText(clock) && 'm' !in ClockText(clock) && 'r' !in ClockText(clock)
  {
    if clock.Some? {
      TimeRoundTrip(clock.value);
      TimeIsoChars(clock.value);
    } else {
      AbsentCharNotContained("", ":", ':');
      AbsentCharNotContained("", ".", '.');
    }
  }

  /** The three components peel off in turn, leaving the clock text. */
  lemma TextPeels(years: Option<int>, months: Option<int>, days: Option<int>,
                  clock: Option<PyTime>)
    ensures var dayText := Component(days, "day", ClockText(clock));
      var monText := Component(months, "mon", dayText);
      && Peel(IntervalText(years, months, days, clock), "year") == Ok((CountOf(years), monText))
      && Peel(monText, "mon") == Ok((CountOf(months), dayText))
      && Peel(dayText, "day") == Ok((CountOf(days), ClockText(clock)))
  {
    var clockText := ClockText(clock);
    ClockTextDecodes(clock);
    var dayText := Component(days, "day", clockText);
    assert Peel(dayText, "day") == Ok((CountOf(days), clockText)) by {
      PeelComponent(days, "day", clockText, 'd');
    }
    assert 'm' !in dayText && 'r' !in dayText by {
      ComponentLacks(days, "day", clockText, 'm');
      ComponentLacks(days, "day", clockText, 'r');
    }
    var monText := Component(months, "mon", dayText);
    assert Peel(monText, "mon") == Ok((CountOf(months), dayText)) by {
      PeelComponent(months, "mon", dayText, 'm');
    }
    assert 'r' !in monText by {
      ComponentLacks(months, "mon", dayText, 'r');
    }
    PeelComponent(years, "year", monText, 'r');
  }

  /** Decoding verbose interval text folds its components into days as
      `365 * years + 31 * months + days`, reads the clock as `Time.to_python` does (so
      an absent clock is midnight), and keeps the text verbatim. */
  lemma IntervalTextDecodes(years: Option<int>, months: Option<int>, days: Option<int>,
                            clock: Option<PyTime>)
    ensures IntervalOf(IntervalText(years, months, days, clock)) ==
      MakeInterval(365 * CountOf(years) + 31 * CountOf(months) + CountOf(days),
                   ClockTime(clock), IntervalText(years, months, days, clock))
  {
    TextPeels(years, months, days, clock);
    ClockTextDecodes(clock);
    var dayText := Component(days, "day", ClockText(clock));
    IntervalSteps(IntervalText(years, months, days, clock), CountOf(years),
                  Component(months, "mon", dayText), CountOf(months), dayText, CountOf(days),
                  ClockText(clock));
  }

  // ---------------------------------------------------------------------------------
  // The text made for a plain timedelta, read back

  /** An occurrence of `w` cannot start inside a prefix that lacks `w`'s first character. */
  lemma SkipPrefix(a: string, b: string, w: string)
    requires |w| > 0 && w[0] !in a && !Contains(b, w)
    ensures !Contains(a + b, w)
  {
    var s := a + b;
    forall j | OccursAt(s, w, j)
      ensures OccursAt(b, w, j - |a|)
    {
      assert s[j] == w[0];
      assert b[j - |a|..j - |a| + |w|] == s[j..j + |w|];
    }
  }

  /** An occurrence of `w` cannot start at a character whose successor is wrong. */
  lemma SkipHead(x: char, b: string, w: string)
    requires |w| >= 2 && (|b| == 0 || b[0] != w[1]) && !Contains(b, w)
    ensures !Contains([x] + b, w)
  {
  }

  lemma Regroup(a: string, b: string, c: string)
    ensures a + b + c == a + (b + c)
  {
  }

  /** The characters of `SynthSeconds`: no `y`, no `a`, no `:` and no `.`. */
  lemma SynthSecondsChars(d: PyDelta)
    ensures var r := SynthSeconds(d);
      'y' !in r && 'a' !in r && ':' !in r && '.' !in r
  {
    var a, b := IntToDecimal(d.seconds), IntToDecimal(d.microseconds);
    IntToDecimalChars(d.seconds);
    IntToDecimalChars(d.microseconds);
    AbsentFromFour('y', a, " seconds ", b, " microseconds");
    AbsentFromFour('a', a, " seconds ", b, " microseconds");
    AbsentFromFour(':', a, " seconds ", b, " microseconds");
    AbsentFromFour('.', a, " seconds ", b, " microseconds");
  }

  lemma AbsentFromFour(x: char, a: string, b: string, c: string, e: string)
    requires x !in a && x !in b && x !in c && x !in e
    ensures x !in a + (b + (c + e))
  {
  }

  /** The synthesised text names no years: its only `y` is followed by `s`. */
  lemma SynthHasNoYear(d: PyDelta)
    ensures !Contains(SynthText(d), "year")
  {
    var r := SynthSeconds(d);
    SynthSecondsChars(d);
    assert !Contains(" days " + r, "year") by {
      DaysSpelling(r);
      LoneStart(" da", 'y', "s " + r, "year");
    }
    IntToDecimalChars(d.days);
    SkipPrefix(IntToDecimal(d.days), " days " + r, "year");
  }

  /** The `y` of ` days ` is followed by `s`. */
  lemma DaysSpelling(r: string)
    ensures " days " + r == " da" + (['y'] + ("s " + r))
  {
    assert " days " == " da" + ['y'] + "s ";
  }

  /** The synthesised text names no months: its only `m` starts `microseconds`. */
  lemma SynthHasNoMonth(d: PyDelta)
    ensures !Contains(SynthText(d), "mon")
  {
    SecondsHaveNoMonth(d);
    SkipPrefix(" days ", SynthSeconds(d), "mon");
    IntToDecimalChars(d.days);
    SkipPrefix(IntToDecimal(d.days), " days " + SynthSeconds(d), "mon");
  }

  lemma SecondsHaveNoMonth(d: PyDelta)
    ensures !Contains(SynthSeconds(d), "mon")
  {
    var micro := IntToDecimal(d.microseconds) + " microseconds";
    assert !Contains(micro, "mon") by {
      MicrosecondsHaveNoMonth();
      IntToDecimalChars(d.microseconds);
      SkipPrefix(IntToDecimal(d.microseconds), " microseconds", "mon");
    }
    IntToDecimalChars(d.seconds);
    SkipTwo(IntToDecimal(d.seconds), " seconds ", micro, "mon");
  }

  lemma SkipTwo(a: string, b: string, c: string, w: string)
    requires |w| > 0 && w[0] !in a && w[0] !in b && !Contains(c, w)
    ensures !Contains(a + (b + c), w)
  {
    SkipPrefix(b, c, w);
    SkipPrefix(a, b + c, w);
  }

  lemma MicrosecondsHaveNoMonth()
    ensures !Contains(" microseconds", "mon")
  {
    assert " microseconds" == " " + (['m'] + "icroseconds");
    LoneStart(" ", 'm', "icroseconds", "mon");
  }

  /** `w` does not occur in `pre + [x] + post` when its first character is absent from
      `pre` and `post`, and `x` is not followed by `w`'s second character. */
  lemma LoneStart(pre: string, x: char, post: string, w: string)
    requires |w| >= 2 && w[0] !in pre && w[0] !in post && (|post| == 0 || post[0] != w[1])
    ensures !Contains(pre + ([x] + post), w)
  {
    AbsentCharNotContained(post, w, w[0]);
    SkipHead(x, post, w);
    SkipPrefix(pre, [x] + post, w);
  }

  /** Decoding the text made for a plain timedelta keeps only its days: the seconds and
      microseconds are not in a form `Interval.to_python` reads, so they come back as
      midnight. */
  lemma SynthTextDecodesToDays(d: PyDelta)
    ensures IntervalOf(SynthText(d)) == Ok(PgIntervalVal(Delta(d.days, 0, 0), Some(SynthText(d))))
  {
    var text, rest := SynthText(d), SynthSeconds(d);
    SynthPeelsNothingFirst(d);
    SynthPeelsDays(d);
    SynthRestIsMidnight(d);
    IntervalSteps(text, 0, text, 0, text, d.days, rest);
  }

  /** Neither a year nor a month count is peeled off the synthesised text. */
  lemma SynthPeelsNothingFirst(d: PyDelta)
    ensures Peel(SynthText(d), "year") == Ok((0, SynthText(d)))
    ensures Peel(SynthText(d), "mon") == Ok((0, SynthText(d)))
  {
    SynthHasNoYear(d);
    SynthHasNoMonth(d);
  }

  /** The day count of the synthesised text is the timedelta's days. */
  lemma SynthPeelsDays(d: PyDelta)
    ensures Peel(SynthText(d), "day") == Ok((d.days, SynthSeconds(d)))
  {
    var text, days, rest := SynthText(d), IntToDecimal(d.days), SynthSeconds(d);
    SynthSecondsChars(d);
    IntToDecimalChars(d.days);
    assert text == days + (" " + "day") + ("s" + " " + rest) by {
      Regroup(days, " day", "s " + rest);
      Regroup(" day", "s ", rest);
    }
    UnitSplits(days, "day", "s" + " " + rest, 'a');
    IntRoundTrip(d.days);
    AfterWordSpace("s", rest);
  }

  /** What follows the day count has no clock in it, which `Time.to_python` reads as
      midnight. */
  lemma SynthRestIsMidnight(d: PyDelta)
    ensures TimeOf(SynthSeconds(d)) == Ok(Time(0, 0, 0, 0))
  {
    var rest := SynthSeconds(d);
    SynthSecondsChars(d);
    AbsentCharNotContained(rest, ":", ':');
    AbsentCharNotContained(rest, ".", '.');
    TimeWithoutClock(rest);
  }

  /** The worked example of the interval text: 10 years 10 months 15 days is
      3650 + 310 + 15 = 3975 days, and 10:10:10 is 36610 seconds. */
  lemma TenYearsTenMonths()
    ensures IntervalOf("10 years 10 mons 15 days 10:10:10") == Ok(PgIntervalVal(
      Delta(3975, 36610, 0), Some("10 years 10 mons 15 days 10:10:10")))
  {
    var text := "10 years 10 mons 15 days 10:10:10";
    var t := Time(10, 10, 10, 0);
    assert IntervalText(Some(10), Some(10), Some(15), Some(t)) == text by {
      TenYearsText();
    }
    IntervalTextDecodes(Some(10), Some(10), Some(15), Some(t));
  }

  lemma TenYearsText()
    ensures IntervalText(Some(10), Some(10), Some(15), Some(Time(10, 10, 10, 0)))
      == "10 years 10 mons 15 days 10:10:10"
  {
    TenDays();
    TenMonths();
    TenUnits();
    assert Component(Some(10), "year", "10 mons 15 days 10:10:10")
      == "10 years" + " " + "10 mons 15 days 10:10:10";
  }

  lemma TenDays()
    ensures Component(Some(15), "day", ClockText(Some(Time(10, 10, 10, 0)))) == "15 days 10:10:10"
  {
    TenClock();
    TenUnits();
    assert Component(Some(15), "day", "10:10:10") == "15 days" + " " + "10:10:10";
  }

  lemma TenMonths()
    ensures Component(Some(10), "mon", "15 days 10:10:10") == "10 mons 15 days 10:10:10"
  {
    TenUnits();
    assert Component(Some(10), "mon", "15 days 10:10:10") == "10 mons" + " " + "15 days 10:10:10";
  }

  lemma TenClock()
    ensures TimeIso(Time(10, 10, 10, 0)) == "10:10:10"
  {
    assert Padded(10, 2) == "10";
  }

  lemma TenUnits()
    ensures UnitText(10, "year") == "10 years" && UnitText(10, "mon") == "10 mons"
    ensures UnitText(15, "day") == "15 days"
  {
    assert IntToDecimal(10) == "10" && IntToDecimal(15) == "15";
  }
}
