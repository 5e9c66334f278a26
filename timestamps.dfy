/** `date_to_timestamp` (main.py:175-187): split `"Y-M-DTh:m:s"` into six
    integers, hand them to the runtime's `mktime`, add the timezone. */
module Timestamps {
  import opened Errors
  import opened PyText

  const SecondsPerHour := 3600

  /** The six calendar fields handed to `time.mktime`; the trailing weekday,
      yearday and DST flag of the source's tuple are the constants 0, 0, -1. */
  datatype DateFields = DateFields(year: int, month: int, day: int, hour: int, minute: int, second: int)

  /** `time.mktime` belongs to the runtime; the model takes it as a given
      total function from the fields to seconds. */
  type MakeTime = DateFields -> int

  predicate NonNegative(f: DateFields) {
    f.year >= 0 && f.month >= 0 && f.day >= 0 && f.hour >= 0 && f.minute >= 0 && f.second >= 0
  }

  /** The two `split`s and the two three-way unpackings of main.py:177-179;
      a wrong number of pieces or a piece `int()` refuses is a ValueError. */
  function ParseDate(s: string): Result<DateFields> {
    var halves := Split(s, 'T');
    if |halves| != 2 then Err(MalformedDate)
    else
      var date := Split(halves[0], '-');
      var time := Split(halves[1], ':');
      if |date| != 3 || |time| != 3 then Err(MalformedDate)
      else
        match (ParseInt(date[0]), ParseInt(date[1]), ParseInt(date[2]),
               ParseInt(time[0]), ParseInt(time[1]), ParseInt(time[2]))
        case (Some(y), Some(mo), Some(d), Some(h), Some(mi), Some(se)) =>
          Ok(DateFields(y, mo, d, h, mi, se))
        case _ => Err(MalformedDate)
  }

  /** The date text the configuration uses, `YYYY-MM-DDThh:mm:ss`. */
  function DateString(f: DateFields): string {
    Triple(ZeroPadded(f.year, 4), '-', ZeroPadded(f.month, 2), ZeroPadded(f.day, 2)) + "T"
    + Triple(ZeroPadded(f.hour, 2), ':', ZeroPadded(f.minute, 2), ZeroPadded(f.second, 2))
  }

  function Triple(a: string, sep: char, b: string, c: string): string {
    a + [sep] + b + [sep] + c
  }

  /** `date_to_timestamp(date_str, timezone_offset)`. */
  function DateToTimestamp(mktime: MakeTime, s: string, timezone: int): (r: Result<int>)
    ensures r.Err? <==> ParseDate(s).Err?
    ensures r.Err? ==> r.failure == MalformedDate
    ensures ParseDate(s).Ok? ==> r.Ok? && r.value - timezone * SecondsPerHour == mktime(ParseDate(s).value)
  {
    match ParseDate(s)
    case Ok(f) => Ok(mktime(f) + timezone * SecondsPerHour)
    case Err(e) => Err(e)
  }

  lemma NumericWithoutSeparators(s: string)
    requires AllDigits(s)
    ensures 'T' !in s && '-' !in s && ':' !in s
  {
    forall k | 0 <= k < |s| ensures s[k] != 'T' && s[k] != '-' && s[k] != ':' {
      assert IsDigit(s[k]);
    }
  }

  lemma {:induction false} SplitThree(a: string, b: string, c: string, sep: char)
    requires sep !in a && sep !in b && sep !in c
    ensures Split(Triple(a, sep, b, c), sep) == [a, b, c]
  {
    assert Triple(a, sep, b, c) == a + [sep] + (b + [sep] + c);
    SplitAtFirst(a, sep, b + [sep] + c);
    SplitAtFirst(b, sep, c);
    SplitWithoutSeparator(c, sep);
  }

  /** The three pieces of a date or a time parse back to their numbers. */
  lemma {:induction false} ParseTriple(x: int, wx: int, y: int, z: int, sep: char)
    requires x >= 0 && y >= 0 && z >= 0
    requires sep == '-' || sep == ':'
    ensures Split(Triple(ZeroPadded(x, wx), sep, ZeroPadded(y, 2), ZeroPadded(z, 2)), sep)
      == [ZeroPadded(x, wx), ZeroPadded(y, 2), ZeroPadded(z, 2)]
    ensures ParseInt(ZeroPadded(x, wx)) == Some(x)
    ensures ParseInt(ZeroPadded(y, 2)) == Some(y)
    ensures ParseInt(ZeroPadded(z, 2)) == Some(z)
    ensures 'T' !in Triple(ZeroPadded(x, wx), sep, ZeroPadded(y, 2), ZeroPadded(z, 2))
  {
    var a, b, c := ZeroPadded(x, wx), ZeroPadded(y, 2), ZeroPadded(z, 2);
    NumericWithoutSeparators(a);
    NumericWithoutSeparators(b);
    NumericWithoutSeparators(c);
    SplitThree(a, b, c, sep);
    ZeroPaddedRoundTrip(x, wx);
    ZeroPaddedRoundTrip(y, 2);
    ZeroPaddedRoundTrip(z, 2);
    assert Triple(a, sep, b, c) == a + [sep] + b + [sep] + c;
  }

  /** Parsing undoes `DateString` for every date with non-negative fields. */
  lemma {:induction false} ParseDateString(f: DateFields)
    requires NonNegative(f)
    ensures ParseDate(DateString(f)) == Ok(f)
  {
    var datePart := Triple(ZeroPadded(f.year, 4), '-', ZeroPadded(f.month, 2), ZeroPadded(f.day, 2));
    var timePart := Triple(ZeroPadded(f.hour, 2), ':', ZeroPadded(f.minute, 2), ZeroPadded(f.second, 2));
    ParseTriple(f.year, 4, f.month, f.day, '-');
    ParseTriple(f.hour, 2, f.minute, f.second, ':');
    SplitAtFirst(datePart, 'T', timePart);
    SplitWithoutSeparator(timePart, 'T');
    assert Split(DateString(f), 'T') == [datePart, timePart];
  }

  /** The end date of the configuration parses to its six fields. */
  lemma ConfiguredEndDate()
    ensures ParseDate("2024-10-31T00:00:00") == Ok(DateFields(2024, 10, 31, 0, 0, 0))
  {
    var f := DateFields(2024, 10, 31, 0, 0, 0);
    assert DateString(f) == "2024-10-31T00:00:00";
    ParseDateString(f);
  }

  /** The timestamp of a well-formed date is `mktime` of its fields plus the
      offset, so taking the offset off again gives `mktime` back. */
  lemma {:induction false} TimestampOfDateString(mktime: MakeTime, f: DateFields, timezone: int)
    requires NonNegative(f)
    ensures DateToTimestamp(mktime, DateString(f), timezone).Ok?
    ensures DateToTimestamp(mktime, DateString(f), timezone).value - timezone * SecondsPerHour == mktime(f)
  {
    ParseDateString(f);
  }

  /** One more hour of timezone offset moves the timestamp by 3600 seconds. */
  lemma TimezoneHourShift(mktime: MakeTime, s: string, timezone: int)
    ensures DateToTimestamp(mktime, s, timezone + 1).Ok? == DateToTimestamp(mktime, s, timezone).Ok?
    ensures DateToTimestamp(mktime, s, timezone).Ok? ==>
      DateToTimestamp(mktime, s, timezone + 1).value == DateToTimestamp(mktime, s, timezone).value + SecondsPerHour
  {
  }
}
