/** The text of the digital and countdown readouts: the local-hour wrap of
    `draw_digital_datetime` (main.py:207-211) and the two chains of
    `str.replace` calls (main.py:214-224 and main.py:279-283). */
module Formatting {
  import opened PyText

  /** The local hour: the timezone is added and ONE correction of 24 is
      applied when the sum leaves [0, 24). */
  function LocalHour(hour: int, timezone: int): (h: int)
    ensures h % 24 == (hour + timezone) % 24
    ensures 0 <= hour < 24 && -24 <= timezone < 24 ==> 0 <= h < 24
    ensures 0 <= hour + timezone < 24 ==> h == hour + timezone
  {
    var h := hour + timezone;
    if h >= 24 then h - 24 else if h < 0 then h + 24 else h
  }

  /** Steps `YYYY`, `YY`, `MM`, `M` and the first `DD` of main.py:215-219. */
  function DateTokens(fmt: string, year: int, month: int, day: int): string {
    var s1 := Replace(fmt, "YYYY", ZeroPadded(year, 4));
    var s2 := Replace(s1, "YY", ZeroPadded(year - 2000, 2));
    var s3 := Replace(s2, "MM", ZeroPadded(month, 2));
    var s4 := Replace(s3, "M", Str(month));
    Replace(s4, "DD", ZeroPadded(day, 2))
  }

  /** Steps `HH`, `H`, `mm` and `SS` of main.py:221-224. */
  function TimeTokens(s: string, hour: int, minute: int, second: int): string {
    var s7 := Replace(s, "HH", ZeroPadded(hour, 2));
    var s8 := Replace(s7, "H", Str(hour));
    var s9 := Replace(s8, "mm", ZeroPadded(minute, 2));
    Replace(s9, "SS", ZeroPadded(second, 2))
  }

  /** The ten replacements of main.py:214-224 in their fixed order, the
      second `DD` replacement (main.py:220) included; `hour` is the local
      hour. */
  function FormatDateTime(fmt: string, year: int, month: int, day: int,
                          hour: int, minute: int, second: int): string
  {
    TimeTokens(Replace(DateTokens(fmt, year, month, day), "DD", Str(day)), hour, minute, second)
  }

  /** The four replacements of main.py:279-283. */
  function FormatCountdown(fmt: string, days: int, hours: int, minutes: int, seconds: int): string {
    var s1 := Replace(fmt, "D", Str(days));
    var s2 := Replace(s1, "H", Str(hours));
    var s3 := Replace(s2, "M", Str(minutes));
    Replace(s3, "S", Str(seconds))
  }

  lemma NumericHasNoLetter(s: string, c: char)
    requires Numeric(s)
    requires !IsDigit(c) && c != '-'
    ensures c !in s
  {
    forall k | 0 <= k < |s| ensures s[k] != c {
      assert IsDigit(s[k]) || s[k] == '-';
    }
  }

  /** The first `DD` replacement leaves no `DD` behind (every replacement
      is made of digits and signs), so the second one changes nothing. */
  lemma ShortDayReplaceIsNoOp(fmt: string, year: int, month: int, day: int,
                              hour: int, minute: int, second: int)
    ensures !Occurs(DateTokens(fmt, year, month, day), "DD")
    ensures FormatDateTime(fmt, year, month, day, hour, minute, second)
         == TimeTokens(DateTokens(fmt, year, month, day), hour, minute, second)
  {
    var s1 := Replace(fmt, "YYYY", ZeroPadded(year, 4));
    var s2 := Replace(s1, "YY", ZeroPadded(year - 2000, 2));
    var s3 := Replace(s2, "MM", ZeroPadded(month, 2));
    var s4 := Replace(s3, "M", Str(month));
    NumericHasNoLetter(ZeroPadded(day, 2), 'D');
    ReplaceRemovesPair(s4, 'D', ZeroPadded(day, 2));
    ReplaceAbsent(DateTokens(fmt, year, month, day), "DD", Str(day));
  }

  /** After the date steps the year, month and day tokens are used up:
      no `YY`, no `M` and no `DD` remains. */
  lemma DateTokensConsumed(fmt: string, year: int, month: int, day: int)
    ensures !Occurs(DateTokens(fmt, year, month, day), "YY")
    ensures 'M' !in DateTokens(fmt, year, month, day)
  {
    var s1 := Replace(fmt, "YYYY", ZeroPadded(year, 4));
    var s2 := Replace(s1, "YY", ZeroPadded(year - 2000, 2));
    var s3 := Replace(s2, "MM", ZeroPadded(month, 2));
    var s4 := Replace(s3, "M", Str(month));
    NumericHasNoLetter(ZeroPadded(year - 2000, 2), 'Y');
    NumericHasNoLetter(ZeroPadded(month, 2), 'Y');
    NumericHasNoLetter(Str(month), 'Y');
    NumericHasNoLetter(ZeroPadded(day, 2), 'Y');
    NumericHasNoLetter(Str(month), 'M');
    NumericHasNoLetter(ZeroPadded(day, 2), 'M');
    ReplaceRemovesPair(s1, 'Y', ZeroPadded(year - 2000, 2));
    ReplaceKeepsPairAbsent(s2, "MM", ZeroPadded(month, 2), 'Y');
    ReplaceKeepsPairAbsent(s3, "M", Str(month), 'Y');
    ReplaceKeepsPairAbsent(s4, "DD", ZeroPadded(day, 2), 'Y');
    ReplaceRemovesChar(s3, 'M', Str(month));
    ReplaceKeepsCharAbsent(s4, "DD", ZeroPadded(day, 2), 'M');
  }

  /** The time steps use up `H`, `mm` and `SS`, and keep out any `YY`, `M`
      or `DD` that was already gone. */
  lemma TimeTokensConsumed(s: string, hour: int, minute: int, second: int)
    ensures 'H' !in TimeTokens(s, hour, minute, second)
    ensures !Occurs(TimeTokens(s, hour, minute, second), "mm")
    ensures !Occurs(TimeTokens(s, hour, minute, second), "SS")
    ensures 'M' !in s ==> 'M' !in TimeTokens(s, hour, minute, second)
    ensures !Occurs(s, "YY") ==> !Occurs(TimeTokens(s, hour, minute, second), "YY")
    ensures !Occurs(s, "DD") ==> !Occurs(TimeTokens(s, hour, minute, second), "DD")
  {
    var hh, h, mm, ss := ZeroPadded(hour, 2), Str(hour), ZeroPadded(minute, 2), ZeroPadded(second, 2);
    var s7 := Replace(s, "HH", hh);
    var s8 := Replace(s7, "H", h);
    var s9 := Replace(s8, "mm", mm);
    var s10 := Replace(s9, "SS", ss);
    NumericHasNoLetter(h, 'H');
    NumericHasNoLetter(mm, 'H');
    NumericHasNoLetter(ss, 'H');
    ReplaceRemovesChar(s7, 'H', h);
    ReplaceKeepsCharAbsent(s8, "mm", mm, 'H');
    ReplaceKeepsCharAbsent(s9, "SS", ss, 'H');
    NumericHasNoLetter(mm, 'm');
    NumericHasNoLetter(ss, 'm');
    ReplaceRemovesPair(s8, 'm', mm);
    ReplaceKeepsPairAbsent(s9, "SS", ss, 'm');
    NumericHasNoLetter(ss, 'S');
    ReplaceRemovesPair(s9, 'S', ss);
    TimeStepsKeep(s, hour, minute, second, 'M');
    TimeStepsKeepPair(s, hour, minute, second, 'Y');
    TimeStepsKeepPair(s, hour, minute, second, 'D');
  }

  lemma TimeStepsKeep(s: string, hour: int, minute: int, second: int, c: char)
    requires !IsDigit(c) && c != '-'
    ensures c !in s ==> c !in TimeTokens(s, hour, minute, second)
  {
    var hh, h, mm, ss := ZeroPadded(hour, 2), Str(hour), ZeroPadded(minute, 2), ZeroPadded(second, 2);
    NumericHasNoLetter(hh, c);
    NumericHasNoLetter(h, c);
    NumericHasNoLetter(mm, c);
    NumericHasNoLetter(ss, c);
    if c !in s {
      var s7 := Replace(s, "HH", hh);
      var s8 := Replace(s7, "H", h);
      var s9 := Replace(s8, "mm", mm);
      ReplaceKeepsCharAbsent(s, "HH", hh, c);
      ReplaceKeepsCharAbsent(s7, "H", h, c);
      ReplaceKeepsCharAbsent(s8, "mm", mm, c);
      ReplaceKeepsCharAbsent(s9, "SS", ss, c);
    }
  }

  lemma TimeStepsKeepPair(s: string, hour: int, minute: int, second: int, c: char)
    requires !IsDigit(c) && c != '-'
    ensures !Occurs(s, [c, c]) ==> !Occurs(TimeTokens(s, hour, minute, second), [c, c])
  {
    var hh, h, mm, ss := ZeroPadded(hour, 2), Str(hour), ZeroPadded(minute, 2), ZeroPadded(second, 2);
    NumericHasNoLetter(hh, c);
    NumericHasNoLetter(h, c);
    NumericHasNoLetter(mm, c);
    NumericHasNoLetter(ss, c);
    if !Occurs(s, [c, c]) {
      var s7 := Replace(s, "HH", hh);
      var s8 := Replace(s7, "H", h);
      var s9 := Replace(s8, "mm", mm);
      ReplaceKeepsPairAbsent(s, "HH", hh, c);
      ReplaceKeepsPairAbsent(s7, "H", h, c);
      ReplaceKeepsPairAbsent(s8, "mm", mm, c);
      ReplaceKeepsPairAbsent(s9, "SS", ss, c);
    }
  }

  /** The whole chain leaves none of its tokens behind except the single
      letters `Y` and `D`, which no step replaces on its own. */
  lemma DateTimeTokensConsumed(fmt: string, year: int, month: int, day: int,
                               hour: int, minute: int, second: int)
    ensures !Occurs(FormatDateTime(fmt, year, month, day, hour, minute, second), "YY")
    ensures 'M' !in FormatDateTime(fmt, year, month, day, hour, minute, second)
    ensures !Occurs(FormatDateTime(fmt, year, month, day, hour, minute, second), "DD")
    ensures 'H' !in FormatDateTime(fmt, year, month, day, hour, minute, second)
    ensures !Occurs(FormatDateTime(fmt, year, month, day, hour, minute, second), "mm")
    ensures !Occurs(FormatDateTime(fmt, year, month, day, hour, minute, second), "SS")
  {
    ShortDayReplaceIsNoOp(fmt, year, month, day, hour, minute, second);
    DateTokensConsumed(fmt, year, month, day);
    TimeTokensConsumed(DateTokens(fmt, year, month, day), hour, minute, second);
  }

  /** A format without `Y`, `M` and `D` passes the date steps unchanged. */
  lemma DateStepsSkip(fmt: string, year: int, month: int, day: int)
    requires 'Y' !in fmt && 'M' !in fmt && 'D' !in fmt
    ensures Replace(DateTokens(fmt, year, month, day), "DD", Str(day)) == fmt
  {
    NoOccurrenceWithoutHead(fmt, "YYYY");
    NoOccurrenceWithoutHead(fmt, "YY");
    NoOccurrenceWithoutHead(fmt, "MM");
    NoOccurrenceWithoutHead(fmt, "M");
    NoOccurrenceWithoutHead(fmt, "DD");
    ReplaceAbsent(fmt, "YYYY", ZeroPadded(year, 4));
    ReplaceAbsent(fmt, "YY", ZeroPadded(year - 2000, 2));
    ReplaceAbsent(fmt, "MM", ZeroPadded(month, 2));
    ReplaceAbsent(fmt, "M", Str(month));
    ReplaceAbsent(fmt, "DD", ZeroPadded(day, 2));
    ReplaceAbsent(fmt, "DD", Str(day));
  }

  lemma HourStepExample()
    ensures Replace("HH:mm:SS", "HH", "01") == "01:mm:SS"
    ensures Replace("01:mm:SS", "H", "1") == "01:mm:SS"
  {
    calc {
      Replace("HH:mm:SS", "HH", "01");
      { assert "HH:mm:SS" == "HH" + ":mm:SS"; }
      Replace("HH" + ":mm:SS", "HH", "01");
      { ReplaceLeadingMatch("HH", ":mm:SS", "01"); }
      "01" + Replace(":mm:SS", "HH", "01");
      { NoOccurrenceWithoutHead(":mm:SS", "HH");
        ReplaceAbsent(":mm:SS", "HH", "01"); }
      "01" + ":mm:SS";
    }
    NoOccurrenceWithoutHead("01:mm:SS", "H");
    ReplaceAbsent("01:mm:SS", "H", "1");
  }

  lemma MinuteStepExample()
    ensures Replace("01:mm:SS", "mm", "05") == "01:05:SS"
  {
    assert "01:mm:SS" == "01:" + ("mm" + ":SS");
    ReplaceSkipsPrefix("01:", "mm" + ":SS", "mm", "05");
    ReplaceLeadingMatch("mm", ":SS", "05");
    NoOccurrenceWithoutHead(":SS", "mm");
    ReplaceAbsent(":SS", "mm", "05");
  }

  lemma SecondStepExample()
    ensures Replace("01:05:SS", "SS", "09") == "01:05:09"
  {
    assert "01:05:SS" == "01:05:" + ("SS" + "");
    ReplaceSkipsPrefix("01:05:", "SS" + "", "SS", "09");
    ReplaceLeadingMatch("SS", "", "09");
  }

  lemma TimeStepsExample(t: string)
    requires t == "HH:mm:SS"
    ensures TimeTokens(t, 1, 5, 9) == "01:05:09"
  {
    assert ZeroPadded(1, 2) == "01" && Str(1) == "1";
    assert ZeroPadded(5, 2) == "05" && ZeroPadded(9, 2) == "09";
    HourStepExample();
    MinuteStepExample();
    SecondStepExample();
  }

  /** `"HH:mm:SS"` at 23:05:09 with timezone +2 reads `"01:05:09"`. */
  lemma TimeOfDayExample(fmt: string, year: int, month: int, day: int)
    requires fmt == "HH:mm:SS"
    ensures FormatDateTime(fmt, year, month, day, LocalHour(23, 2), 5, 9) == "01:05:09"
  {
    DateStepsSkip(fmt, year, month, day);
    assert LocalHour(23, 2) == 1;
    TimeStepsExample(fmt);
  }

  /** A lone `D` is never replaced: the unpadded day the comment at
      main.py:220 announces does not appear. */
  lemma LoneDayLetterSurvives(year: int, month: int, day: int, hour: int, minute: int, second: int)
    ensures FormatDateTime("D", year, month, day, hour, minute, second) == "D"
  {
    var fmt := "D";
    NoOccurrenceWithoutHead(fmt, "YYYY");
    NoOccurrenceWithoutHead(fmt, "YY");
    NoOccurrenceWithoutHead(fmt, "MM");
    NoOccurrenceWithoutHead(fmt, "M");
    NoOccurrenceWithoutHead(fmt, "HH");
    NoOccurrenceWithoutHead(fmt, "H");
    NoOccurrenceWithoutHead(fmt, "mm");
    NoOccurrenceWithoutHead(fmt, "SS");
    assert !Occurs(fmt, "DD");
    ReplaceAbsent(fmt, "YYYY", ZeroPadded(year, 4));
    ReplaceAbsent(fmt, "YY", ZeroPadded(year - 2000, 2));
    ReplaceAbsent(fmt, "MM", ZeroPadded(month, 2));
    ReplaceAbsent(fmt, "M", Str(month));
    ReplaceAbsent(fmt, "DD", ZeroPadded(day, 2));
    ReplaceAbsent(fmt, "DD", Str(day));
    ReplaceAbsent(fmt, "HH", ZeroPadded(hour, 2));
    ReplaceAbsent(fmt, "H", Str(hour));
    ReplaceAbsent(fmt, "mm", ZeroPadded(minute, 2));
    ReplaceAbsent(fmt, "SS", ZeroPadded(second, 2));
  }

  /** The countdown chain replaces every `D`, `H`, `M` and `S`. */
  lemma CountdownTokensConsumed(fmt: string, days: int, hours: int, minutes: int, seconds: int)
    ensures forall c | c in "DHMS" :: c !in FormatCountdown(fmt, days, hours, minutes, seconds)
  {
    var d, h, m, s := Str(days), Str(hours), Str(minutes), Str(seconds);
    var s1 := Replace(fmt, "D", d);
    var s2 := Replace(s1, "H", h);
    var s3 := Replace(s2, "M", m);
    var s4 := Replace(s3, "S", s);
    NumericHasNoLetter(d, 'D');
    NumericHasNoLetter(h, 'D');
    NumericHasNoLetter(m, 'D');
    NumericHasNoLetter(s, 'D');
    NumericHasNoLetter(h, 'H');
    NumericHasNoLetter(m, 'H');
    NumericHasNoLetter(s, 'H');
    NumericHasNoLetter(m, 'M');
    NumericHasNoLetter(s, 'M');
    NumericHasNoLetter(s, 'S');
    ReplaceRemovesChar(fmt, 'D', d);
    ReplaceKeepsCharAbsent(s1, "H", h, 'D');
    ReplaceKeepsCharAbsent(s2, "M", m, 'D');
    ReplaceKeepsCharAbsent(s3, "S", s, 'D');
    ReplaceRemovesChar(s1, 'H', h);
    ReplaceKeepsCharAbsent(s2, "M", m, 'H');
    ReplaceKeepsCharAbsent(s3, "S", s, 'H');
    ReplaceRemovesChar(s2, 'M', m);
    ReplaceKeepsCharAbsent(s3, "S", s, 'M');
    ReplaceRemovesChar(s3, 'S', s);
  }

  /** `"Dd"` with three days left reads `"3d"`. */
  lemma DaysLeftExample(hours: int, minutes: int, seconds: int)
    ensures FormatCountdown("Dd", 3, hours, minutes, seconds) == "3d"
  {
    assert Str(3) == "3";
    assert Replace("Dd", "D", "3") == "3d";
    NoOccurrenceWithoutHead("3d", "H");
    NoOccurrenceWithoutHead("3d", "M");
    NoOccurrenceWithoutHead("3d", "S");
    ReplaceAbsent("3d", "H", Str(hours));
    ReplaceAbsent("3d", "M", Str(minutes));
    ReplaceAbsent("3d", "S", Str(seconds));
  }
}
