/** The drawing routines of main.py: `fillrect`, `draw_analog_hand`,
    `draw_digital_datetime`, `draw_face_circle`, `draw_countdown_timer`,
    `draw_bar_countdown` and `draw_percentage_countdown`. Each routine is a
    method on the `Tft` log, proved against a function that gives the
    calls it makes and the exception that ends it. */
module Widgets {
  import opened Errors
  import opened PyText
  import opened Timestamps
  import opened Formatting
  import opened Countdown
  import opened Screen

  /** A Python number as far as `range` cares: an `int`, or a `float`,
      which `range` refuses with a TypeError. */
  datatype Num = Int(i: int) | Float(f: real)

  // ---------------------------------------------------------------- fillrect

  /** The first `n` vertical lines of `fillrect`, one per column. */
  function VLines(start: Point, n: nat, height: real, color: Color): seq<Command> {
    if n == 0 then []
    else VLines(start, n - 1, height, color) + [VLine(Pt(start.x + (n - 1) as real, start.y), height, color)]
  }

  /** Column `i` of the rectangle is the vertical line at `x + i`, and
      there is exactly one line per column. */
  lemma {:induction false} VLinesColumns(start: Point, n: nat, height: real, color: Color)
    ensures |VLines(start, n, height, color)| == n
    ensures forall i | 0 <= i < n ::
      VLines(start, n, height, color)[i] == VLine(Pt(start.x + i as real, start.y), height, color)
  {
    if n > 0 {
      VLinesColumns(start, n - 1, height, color);
    }
  }

  /** `fillrect(aStart, aSize, aColor)` of main.py:197-199: `range` over a
      float width raises before any line is drawn; a non-positive width
      draws nothing. */
  function LinesDrawing(start: Point, width: Num, height: real, color: Color): Drawing {
    match width
    case Float(_) => Drawing([], Some(FloatRange))
    case Int(n) => Drawing(VLines(start, if n > 0 then n else 0, height, color), None)
  }

  method FillRectByLines(tft: Tft, start: Point, width: Num, height: real, color: Color)
    returns (failure: Option<Failure>)
    modifies tft
    ensures tft.log == old(tft.log) + LinesDrawing(start, width, height, color).cmds
    ensures failure == LinesDrawing(start, width, height, color).failure
  {
    if width.Float? {
      return Some(FloatRange);
    }
    var n := if width.i > 0 then width.i else 0;
    var i := 0;
    while i < n
      invariant 0 <= i <= n
      invariant tft.log == old(tft.log) + VLines(start, i, height, color)
    {
      tft.DrawVLine(Pt(start.x + i as real, start.y), height, color);
      i := i + 1;
    }
    return None;
  }

  // -------------------------------------------------------- draw_analog_hand

  /** `draw_analog_hand(color, center, radius, angle)` of main.py:189-195:
      one line from the centre to the point `radius` away at `angle`. */
  method DrawAnalogHand(tft: Tft, color: Color, center: Point, radius: int, degrees: real)
    modifies tft
    ensures tft.log == old(tft.log) + [Line(At(center), OnCircle(center, radius, degrees), color)]
  {
    tft.DrawLine(At(center), OnCircle(center, radius, degrees), color);
  }

  // --------------------------------------------------- draw_digital_datetime

  /** main.py:202-227: clear `len(format) * 5 * scale` by `8 * scale`
      pixels in black, then write the formatted local time. */
  function DigitalDateTimeDrawing(position: Point, color: Color, timezone: int, fmt: string,
                                  scale: int, local: DateFields): Drawing
  {
    Drawing([FillRect(position, (|fmt| * 5 * scale) as real, (8 * scale) as real, Black),
             Text(At(position), DateTimeText(fmt, timezone, local), color, Some(scale))], None)
  }

  /** The text of the readout: the format with the local time filled in. */
  function DateTimeText(fmt: string, timezone: int, local: DateFields): string {
    FormatDateTime(fmt, local.year, local.month, local.day,
                   LocalHour(local.hour, timezone), local.minute, local.second)
  }

  method DrawDigitalDateTime(tft: Tft, position: Point, color: Color, timezone: int, fmt: string,
                             scale: int, local: DateFields)
    modifies tft
    ensures tft.log == old(tft.log) + DigitalDateTimeDrawing(position, color, timezone, fmt, scale, local).cmds
  {
    tft.FillArea(position, (|fmt| * 5 * scale) as real, (8 * scale) as real, Black);
    var text := DateTimeText(fmt, timezone, local);
    tft.DrawText(At(position), text, color, Some(scale));
    assert tft.log == old(tft.log) + [FillRect(position, (|fmt| * 5 * scale) as real, (8 * scale) as real, Black),
                                     Text(At(position), text, color, Some(scale))];
  }

  /** The digital readout never fails, clears before it writes, and the
      text it writes has every placeholder of the format replaced. */
  lemma DigitalDateTimeReadout(position: Point, color: Color, timezone: int, fmt: string,
                               scale: int, local: DateFields)
    ensures var d := DigitalDateTimeDrawing(position, color, timezone, fmt, scale, local);
      d.failure == None && |d.cmds| == 2 && d.cmds[0].FillRect? && d.cmds[0].color == Black
      && d.cmds[1].Text? && d.cmds[1].at == At(position)
      && 'M' !in d.cmds[1].text && 'H' !in d.cmds[1].text
      && !Occurs(d.cmds[1].text, "YY") && !Occurs(d.cmds[1].text, "DD")
      && !Occurs(d.cmds[1].text, "mm") && !Occurs(d.cmds[1].text, "SS")
  {
    DateTimeTokensConsumed(fmt, local.year, local.month, local.day,
                           LocalHour(local.hour, timezone), local.minute, local.second);
  }

  // -------------------------------------------------------- draw_face_circle

  /** The angle of notch `i`, `(360 / notches) * i` degrees. */
  function TickAngle(notches: int, i: int): real
    requires notches != 0
  {
    (360.0 / notches as real) * i as real
  }

  /** The angle of the label for hour `i`, `(360 / notches) * i - 90`. */
  function LabelAngle(notches: int, i: int): real
    requires notches != 0
  {
    (360.0 / notches as real) * i as real - 90.0
  }

  /** The first `k` notches of main.py:235-241. */
  function Ticks(center: Point, radius: int, notches: int, length: int, color: Color, k: nat): seq<Command>
    requires k == 0 || k <= notches
  {
    if k == 0 then []
    else Ticks(center, radius, notches, length, color, k - 1) + [Tick(center, radius, notches, length, color, k - 1)]
  }

  /** Notch `i`: a line along the ray at `TickAngle(notches, i)`. */
  function Tick(center: Point, radius: int, notches: int, length: int, color: Color, i: int): Command
    requires notches != 0
  {
    var a := TickAngle(notches, i);
    Line(OnCircle(center, radius - length, a), OnCircle(center, radius, a), color)
  }

  /** The first `k` labels `1`, ..., `k` of main.py:243-247. */
  function Labels(center: Point, radius: int, notches: int, length: int, color: Color, k: nat): seq<Command>
    requires k == 0 || k <= notches
  {
    if k == 0 then []
    else Labels(center, radius, notches, length, color, k - 1) + [Label(center, radius, notches, length, color, k)]
  }

  /** Label `i`: the text `str(i)` at `LabelAngle(notches, i)`. */
  function Label(center: Point, radius: int, notches: int, length: int, color: Color, i: int): Command
    requires notches != 0
  {
    Text(LabelSpot(center, radius - length - 5, LabelAngle(notches, i)), Str(i), color, None)
  }

  /** `draw_face_circle` of main.py:231-247: the rim, then the notches when
      `style` is 2 or 3, then the labels when `style` is 1 or 3. A
      non-positive `notches` gives empty ranges. */
  function FaceCommands(center: Point, radius: int, notches: int, color: Color, style: int, length: int): seq<Command> {
    [Circle(center, radius, color)]
      + (if style == 2 || style == 3 then AllTicks(center, radius, notches, length, color) else [])
      + (if style == 1 || style == 3 then AllLabels(center, radius, notches, length, color) else [])
  }

  /** All notches of `range(notches)`. */
  function AllTicks(center: Point, radius: int, notches: int, length: int, color: Color): seq<Command> {
    Ticks(center, radius, notches, length, color, if notches > 0 then notches else 0)
  }

  /** All labels of `range(1, notches + 1)`. */
  function AllLabels(center: Point, radius: int, notches: int, length: int, color: Color): seq<Command> {
    Labels(center, radius, notches, length, color, if notches > 0 then notches else 0)
  }

  method DrawFaceCircle(tft: Tft, center: Point, radius: int, notches: int, color: Color, style: int, length: int)
    modifies tft
    ensures tft.log == old(tft.log) + FaceCommands(center, radius, notches, color, style, length)
  {
    ghost var ticks := if style == 2 || style == 3 then AllTicks(center, radius, notches, length, color) else [];
    ghost var labels := if style == 1 || style == 3 then AllLabels(center, radius, notches, length, color) else [];
    tft.DrawCircle(center, radius, color);
    if style == 2 || style == 3 {
      DrawTicks(tft, center, radius, notches, length, color);
    }
    assert tft.log == old(tft.log) + [Circle(center, radius, color)] + ticks;
    if style == 1 || style == 3 {
      DrawLabels(tft, center, radius, notches, length, color);
    }
    assert tft.log == old(tft.log) + [Circle(center, radius, color)] + ticks + labels;
  }

  /** The loop of main.py:235-241. */
  method DrawTicks(tft: Tft, center: Point, radius: int, notches: int, length: int, color: Color)
    modifies tft
    ensures tft.log == old(tft.log) + AllTicks(center, radius, notches, length, color)
  {
    var n: nat := if notches > 0 then notches else 0;
    var i := 0;
    while i < n
      invariant 0 <= i <= n
      invariant tft.log == old(tft.log) + Ticks(center, radius, notches, length, color, i)
    {
      var a := TickAngle(notches, i);
      tft.DrawLine(OnCircle(center, radius - length, a), OnCircle(center, radius, a), color);
      assert tft.log[|tft.log| - 1] == Tick(center, radius, notches, length, color, i);
      i := i + 1;
    }
  }

  /** The loop of main.py:243-247. */
  method DrawLabels(tft: Tft, center: Point, radius: int, notches: int, length: int, color: Color)
    modifies tft
    ensures tft.log == old(tft.log) + AllLabels(center, radius, notches, length, color)
  {
    var n: nat := if notches > 0 then notches else 0;
    var i := 1;
    while i <= n
      invariant 1 <= i <= n + 1
      invariant tft.log == old(tft.log) + Labels(center, radius, notches, length, color, i - 1)
    {
      var text := Str(i);
      tft.DrawText(LabelSpot(center, radius - length - 5, LabelAngle(notches, i)), text, color, None);
      LabelsStep(center, radius, notches, length, color, i);
      i := i + 1;
    }
  }

  lemma LabelsStep(center: Point, radius: int, notches: int, length: int, color: Color, k: nat)
    requires 1 <= k <= notches
    ensures Labels(center, radius, notches, length, color, k)
         == Labels(center, radius, notches, length, color, k - 1)
            + [Text(LabelSpot(center, radius - length - 5, LabelAngle(notches, k)), Str(k), color, None)]
  {
  }

  /** Notch `i` runs from `radius - length` to `radius` along the ray at
      `(360 / notches) * i` degrees, and there are `k` of them. */
  lemma {:induction false} TicksShape(center: Point, radius: int, notches: int, length: int, color: Color, k: nat)
    requires k == 0 || k <= notches
    ensures |Ticks(center, radius, notches, length, color, k)| == k
    ensures forall i | 0 <= i < k ::
      Ticks(center, radius, notches, length, color, k)[i]
        == Line(OnCircle(center, radius - length, TickAngle(notches, i)),
                OnCircle(center, radius, TickAngle(notches, i)), color)
  {
    if k > 0 {
      TicksShape(center, radius, notches, length, color, k - 1);
    }
  }

  /** Label `i + 1` is the text `str(i + 1)`, placed `length + 5` inside
      the rim at `(360 / notches) * (i + 1) - 90` degrees. */
  lemma {:induction false} LabelsShape(center: Point, radius: int, notches: int, length: int, color: Color, k: nat)
    requires k == 0 || k <= notches
    ensures |Labels(center, radius, notches, length, color, k)| == k
    ensures forall i | 0 <= i < k ::
      Labels(center, radius, notches, length, color, k)[i]
        == Text(LabelSpot(center, radius - length - 5, LabelAngle(notches, i + 1)), Str(i + 1), color, None)
  {
    if k > 0 {
      var init := Labels(center, radius, notches, length, color, k - 1);
      LabelsShape(center, radius, notches, length, color, k - 1);
      var all := init + [Label(center, radius, notches, length, color, k)];
      assert Labels(center, radius, notches, length, color, k) == all;
      forall i | 0 <= i < k
        ensures all[i] == Text(LabelSpot(center, radius - length - 5, LabelAngle(notches, i + 1)), Str(i + 1), color, None)
      {
        if i < k - 1 {
          assert all[i] == init[i];
        }
      }
    }
  }

  /** The notches split the full turn evenly, starting at 0 degrees. */
  lemma TickAnglesWithinTurn(notches: int, i: int)
    requires 0 <= i < notches
    ensures 0.0 <= TickAngle(notches, i) < 360.0
    ensures TickAngle(notches, i + 1) - TickAngle(notches, i) == 360.0 / notches as real
  {
    var step := 360.0 / notches as real;
    assert step * notches as real == 360.0;
    assert step * i as real < step * notches as real;
  }

  /** Label `notches` (the "12" of a twelve-notch face) sits at 270
      degrees, the direction a hand points at the start of its period;
      label 1 (the first drawn) sits one step clockwise of it. */
  lemma LastLabelAtTop(notches: int)
    requires notches > 0
    ensures LabelAngle(notches, notches) == 270.0
    ensures LabelAngle(notches, 1) == 360.0 / notches as real - 90.0
  {
    assert (360.0 / notches as real) * notches as real == 360.0;
  }

  /** The face draws the rim plus `notches` commands for each selected
      part: style 3 draws both, 2 only the notches, 1 only the labels,
      any other style the rim alone. */
  lemma FaceCommandCount(center: Point, radius: int, notches: nat, color: Color, style: int, length: int)
    ensures |FaceCommands(center, radius, notches, color, style, length)|
      == 1 + (if style == 2 || style == 3 then notches else 0)
           + (if style == 1 || style == 3 then notches else 0)
    ensures FaceCommands(center, radius, notches, color, style, length)[0] == Circle(center, radius, color)
  {
    TicksShape(center, radius, notches, length, color, notches);
    LabelsShape(center, radius, notches, length, color, notches);
  }

  // ---------------------------------------------------- draw_countdown_timer

  /** The black box cleared before the countdown text, main.py:253; it is
      not scaled with the text. */
  function CountdownClear(position: Point, fmt: string): Command {
    FillRect(position, (|fmt| * 5) as real, 8.0, Black)
  }

  /** `draw_countdown_timer` of main.py:251-286. */
  function CountdownTimerDrawing(mktime: MakeTime, position: Point, color: Color, endDate: string,
                                 repetition: int, fmt: string, timezone: int, scale: int, now: int): Drawing
  {
    var clear := CountdownClear(position, fmt);
    match DateToTimestamp(mktime, endDate, timezone)
    case Err(e) => Drawing([clear], Some(e))
    case Ok(end) =>
      match Decompose(Remaining(end, now, repetition))
      case Err(e) => Drawing([clear], Some(e))
      case Ok(p) =>
        Drawing([clear, Text(At(position), FormatCountdown(fmt, p.days, p.hours, p.minutes, p.seconds),
                             color, Some(scale))], None)
  }

  method DrawCountdownTimer(tft: Tft, mktime: MakeTime, position: Point, color: Color, endDate: string,
                            repetition: int, fmt: string, timezone: int, scale: int, now: int)
    returns (failure: Option<Failure>)
    modifies tft
    ensures tft.log == old(tft.log)
      + CountdownTimerDrawing(mktime, position, color, endDate, repetition, fmt, timezone, scale, now).cmds
    ensures failure == CountdownTimerDrawing(mktime, position, color, endDate, repetition, fmt, timezone, scale, now).failure
  {
    tft.FillArea(position, (|fmt| * 5) as real, 8.0, Black);
    var end := DateToTimestamp(mktime, endDate, timezone);
    if end.Err? {
      return Some(end.failure);
    }
    var parts := Decompose(Remaining(end.value, now, repetition));
    if parts.Err? {
      return Some(parts.failure);
    }
    var p := parts.value;
    tft.DrawText(At(position), FormatCountdown(fmt, p.days, p.hours, p.minutes, p.seconds), color, Some(scale));
    return None;
  }

  /** A malformed end date fails after the clear; a well-formed one shows
      the countdown text of the (only) in-range split of the remaining
      seconds, or, once the remainder is negative, fails in the fallback. */
  lemma CountdownTimerOutcome(mktime: MakeTime, position: Point, color: Color, endDate: string,
                              repetition: int, fmt: string, timezone: int, scale: int, now: int)
    ensures ParseDate(endDate).Err? ==>
      CountdownTimerDrawing(mktime, position, color, endDate, repetition, fmt, timezone, scale, now)
        == Drawing([CountdownClear(position, fmt)], Some(MalformedDate))
    ensures ParseDate(endDate).Ok? ==>
      var r := Remaining(DateToTimestamp(mktime, endDate, timezone).value, now, repetition);
      (r < 0 ==>
        CountdownTimerDrawing(mktime, position, color, endDate, repetition, fmt, timezone, scale, now)
          == Drawing([CountdownClear(position, fmt)], Some(UnpackMismatch)))
      && (forall p | InRange(p) && Seconds(p) == r ::
        CountdownTimerDrawing(mktime, position, color, endDate, repetition, fmt, timezone, scale, now)
          == Drawing([CountdownClear(position, fmt),
                      Text(At(position), FormatCountdown(fmt, p.days, p.hours, p.minutes, p.seconds),
                           color, Some(scale))], None))
  {
    if ParseDate(endDate).Ok? {
      var r := Remaining(DateToTimestamp(mktime, endDate, timezone).value, now, repetition);
      forall p | InRange(p) && Seconds(p) == r
        ensures Decompose(r) == Ok(p)
      {
        DecomposeSeconds(p);
      }
    }
  }
  /** The configured countdown (main.py:38-47): an end date that parses to
      2024-10-31 00:00 (`Timestamps.ConfiguredEndDate` shows the configured
      text does), a 365-day repetition, format `Dd` and timezone +2. It
      shows its text while at most one period overdue and fails in the
      unpacking fallback from then on. */
  lemma ConfiguredCountdownExpiry(mktime: MakeTime, position: Point, color: Color, endDate: string,
                                  scale: int, now: int)
    requires ParseDate(endDate) == Ok(DateFields(2024, 10, 31, 0, 0, 0))
    ensures var d := CountdownTimerDrawing(mktime, position, color, endDate, 365, "Dd", 2, scale, now);
      var left := mktime(DateFields(2024, 10, 31, 0, 0, 0)) + 2 * SecondsPerHour - now;
      (d.failure == None <==> left >= -365 * SecondsPerDay)
      && (d.failure != None ==> d.failure == Some(UnpackMismatch))
  {
    var r := Remaining(DateToTimestamp(mktime, endDate, 2).value, now, 365);
    CountdownTimerOutcome(mktime, position, color, endDate, 365, "Dd", 2, scale, now);
    if r >= 0 {
      var p := Decompose(r).value;
      assert InRange(p) && Seconds(p) == r;
    }
  }


  // ------------------------------------------------------ draw_bar_countdown

  /** `draw_bar_countdown` of main.py:288-319. Directions 0 to 2 hand the
      filled part to the driver's `fillrect`; direction 3 hands it to the
      module's own `fillrect` with the float width `size[0] * fullness`. The
      white frame is drawn last, only when nothing failed. */
  function BarCountdownDrawing(mktime: MakeTime, position: Point, color: Color, endDate: string,
                               width: int, height: int, countup: int, timezone: int,
                               repetition: int, direction: int, now: int): Drawing
  {
    var clear := FillRect(position, width as real, height as real, Black);
    match DateToTimestamp(mktime, endDate, timezone)
    case Err(e) => Drawing([clear], Some(e))
    case Ok(end) =>
      match Fullness(Remaining(end, now, repetition), repetition, countup)
      case Err(e) => Drawing([clear], Some(e))
      case Ok(f) =>
        var r := BarFill(position.x, position.y, width, height, direction, f);
        var fill :=
          if direction % 4 == 3 then LinesDrawing(Pt(r.x, r.y), Float(r.w), r.h, color)
          else Drawing([FillRect(Pt(r.x, r.y), r.w, r.h, color)], None);
        if fill.failure.Some? then Drawing([clear] + fill.cmds, fill.failure)
        else Drawing([clear] + fill.cmds + [Frame(position, width as real, height as real, White)], None)
  }

  method DrawBarCountdown(tft: Tft, mktime: MakeTime, position: Point, color: Color, endDate: string,
                          width: int, height: int, countup: int, timezone: int,
                          repetition: int, direction: int, now: int)
    returns (failure: Option<Failure>)
    modifies tft
    ensures tft.log == old(tft.log) + BarCountdownDrawing(mktime, position, color, endDate, width, height,
                                                          countup, timezone, repetition, direction, now).cmds
    ensures failure == BarCountdownDrawing(mktime, position, color, endDate, width, height,
                                           countup, timezone, repetition, direction, now).failure
  {
    tft.FillArea(position, width as real, height as real, Black);
    var end := DateToTimestamp(mktime, endDate, timezone);
    if end.Err? {
      return Some(end.failure);
    }
    var fullness := Fullness(Remaining(end.value, now, repetition), repetition, countup);
    if fullness.Err? {
      return Some(fullness.failure);
    }
    var r := BarFill(position.x, position.y, width, height, direction, fullness.value);
    if direction % 4 == 3 {
      failure := FillRectByLines(tft, Pt(r.x, r.y), Float(r.w), r.h, color);
      if failure.Some? {
        return;
      }
    } else {
      tft.FillArea(Pt(r.x, r.y), r.w, r.h, color);
    }
    tft.DrawFrame(position, width as real, height as real, White);
    return None;
  }

  /** The bar succeeds exactly when the end date parses, the repetition is
      non-zero and the direction is not 3 (mod 4); then it draws the clear,
      the filled part given by `BarFill` and the white frame, and the filled
      part lies inside the frame while the remainder is within one period.
      Direction 3 always fails after the clear, without a frame. */
  lemma BarCountdownOutcome(mktime: MakeTime, position: Point, color: Color, endDate: string,
                            width: nat, height: nat, countup: int, timezone: int,
                            repetition: int, direction: int, now: int)
    ensures var d := BarCountdownDrawing(mktime, position, color, endDate, width, height,
                                         countup, timezone, repetition, direction, now);
      (d.failure == None <==> ParseDate(endDate).Ok? && repetition != 0 && direction % 4 != 3)
      && d.cmds[0] == FillRect(position, width as real, height as real, Black)
    ensures ParseDate(endDate).Ok? && repetition != 0 && direction % 4 == 3 ==>
      BarCountdownDrawing(mktime, position, color, endDate, width, height,
                          countup, timezone, repetition, direction, now)
        == Drawing([FillRect(position, width as real, height as real, Black)], Some(FloatRange))
    ensures ParseDate(endDate).Ok? && repetition != 0 && direction % 4 != 3 ==>
      var rem := Remaining(DateToTimestamp(mktime, endDate, timezone).value, now, repetition);
      var r := BarFill(position.x, position.y, width, height, direction, Fullness(rem, repetition, countup).value);
      var d := BarCountdownDrawing(mktime, position, color, endDate, width, height,
                                   countup, timezone, repetition, direction, now);
      d.cmds == [FillRect(position, width as real, height as real, Black),
                 FillRect(Pt(r.x, r.y), r.w, r.h, color),
                 Frame(position, width as real, height as real, White)]
      && (repetition > 0 && 0 <= rem <= repetition * SecondsPerDay ==>
            position.x <= r.x && r.x + r.w <= position.x + width as real
            && position.y <= r.y && r.y + r.h <= position.y + height as real)
  {
    if ParseDate(endDate).Ok? && repetition != 0 {
      var rem := Remaining(DateToTimestamp(mktime, endDate, timezone).value, now, repetition);
      if repetition > 0 && 0 <= rem <= repetition * SecondsPerDay {
        FullnessInUnitInterval(rem, repetition, countup);
        BarFillInsideBar(position.x, position.y, width, height, direction, Fullness(rem, repetition, countup).value);
      }
    }
  }

  // ----------------------------------------------- draw_percentage_countdown

  /** `draw_percentage_countdown` of main.py:321-343; a negative
      `decimals` makes the f-string's format specification invalid. */
  function PercentCountdownDrawing(mktime: MakeTime, position: Point, color: Color, endDate: string,
                                   decimals: int, countup: int, timezone: int, repetition: int,
                                   scale: int, now: int): Drawing
  {
    var clear := FillRect(position, (24 + decimals * 8) as real, 8.0, Black);
    match DateToTimestamp(mktime, endDate, timezone)
    case Err(e) => Drawing([clear], Some(e))
    case Ok(end) =>
      match Percentage(Remaining(end, now, repetition), repetition, countup)
      case Err(e) => Drawing([clear], Some(e))
      case Ok(p) =>
        if decimals < 0 then Drawing([clear], Some(FormatSpec))
        else Drawing([clear, PercentText(At(position), p, decimals, color, Some(scale))], None)
  }

  method DrawPercentCountdown(tft: Tft, mktime: MakeTime, position: Point, color: Color, endDate: string,
                              decimals: int, countup: int, timezone: int, repetition: int,
                              scale: int, now: int)
    returns (failure: Option<Failure>)
    modifies tft
    ensures tft.log == old(tft.log) + PercentCountdownDrawing(mktime, position, color, endDate, decimals,
                                                              countup, timezone, repetition, scale, now).cmds
    ensures failure == PercentCountdownDrawing(mktime, position, color, endDate, decimals,
                                               countup, timezone, repetition, scale, now).failure
  {
    tft.FillArea(position, (24 + decimals * 8) as real, 8.0, Black);
    var end := DateToTimestamp(mktime, endDate, timezone);
    if end.Err? {
      return Some(end.failure);
    }
    var percent := Percentage(Remaining(end.value, now, repetition), repetition, countup);
    if percent.Err? {
      return Some(percent.failure);
    }
    if decimals < 0 {
      return Some(FormatSpec);
    }
    tft.DrawPercent(At(position), percent.value, decimals, color, Some(scale));
    return None;
  }

  /** The percentage succeeds exactly when the end date parses, the
      repetition is non-zero and `decimals` is not negative; the value it
      writes is a hundred times the bar's fullness for the same inputs. */
  lemma PercentCountdownOutcome(mktime: MakeTime, position: Point, color: Color, endDate: string,
                                decimals: int, countup: int, timezone: int, repetition: int,
                                scale: int, now: int)
    ensures var d := PercentCountdownDrawing(mktime, position, color, endDate, decimals,
                                             countup, timezone, repetition, scale, now);
      (d.failure == None <==> ParseDate(endDate).Ok? && repetition != 0 && decimals >= 0)
      && d.cmds[0] == FillRect(position, (24 + decimals * 8) as real, 8.0, Black)
      && (d.failure == None ==>
            var rem := Remaining(DateToTimestamp(mktime, endDate, timezone).value, now, repetition);
            d.cmds == [d.cmds[0], PercentText(At(position), 100.0 * Fullness(rem, repetition, countup).value,
                                              decimals, color, Some(scale))])
  {
    if ParseDate(endDate).Ok? && repetition != 0 {
      var rem := Remaining(DateToTimestamp(mktime, endDate, timezone).value, now, repetition);
      PercentageIsHundredfold(rem, repetition, countup);
    }
  }
}
