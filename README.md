# A Dafny model of the st7735 modular clock

`main.py` drives a small TFT display from a MicroPython board. A JSON
configuration lists clock components:
- analog hands;
- digital date/time readouts;
- clock faces with notches and hour labels;
- countdown text;
- fill bars;
- percentages counting down to a date.

`draw_clock` sets the display up and draws every face once. It then loops
forever: each turn switches the backlight by the local hour and, once 1000 ms
have passed since the last update, redraws every component in configuration
order.

The model follows the program's structure, one module per concern:

- `Errors`: `Option`, `Result` and the exceptions the program can raise.
- `PyText`: the Python string operations it relies on. These are `replace`,
  `split`, `str`, `"{:0w}".format` and `int`, each with its facts (occurrences
  removed, split/join inverse, `int(str(n)) == n`).
- `Timestamps`: `date_to_timestamp`, with `time.mktime` as a parameter.
- `Formatting`: the local-hour correction and the replacement chains of the
  digital readout and of the countdown text.
- `Countdown`: the countdown arithmetic. This covers the remaining seconds with
  one repetition shift, the day/hour/minute/second split, the fill fraction,
  the percentage and the filled part of a bar.
- `Hands`: Python's `%` and the analog hand angle.
- `Screen`: the `tft` driver as a class whose `log` field records every
  drawing call, in order.
- `Widgets`: each `draw_*` routine and the module's own `fillrect`. Each is a
  method that appends to the `Tft` log. It is proved against a function
  giving the calls it makes and the exception that ends it.
- `Engine`: the component list, one redraw pass (a method with a loop, proved
  against `Pass`), the static face pre-pass, the backlight test, and
  `draw_clock` itself. `draw_clock` is run over a finite list of loop turns
  and proved against `Session`/`Run`.

Exceptions are values. A routine that raises stops, and the exception leaves
the redraw and `draw_clock`, so nothing after it is drawn.

The model keeps the code's behaviour where it is surprising, and proves lemmas
about each case:
- The fallback `days, hours, minutes, seconds = 0, 0, 0` unpacks three values
  into four names, so it raises whenever the remainder is still negative
  after the single repetition shift. That is every expired countdown without
  repetition, and every one more than a period overdue
  (`Countdown.ExpiredCountdown`, `Widgets.CountdownTimerOutcome`). For the
  configured countdown (a 365-day repetition from 2024-10-31) this happens
  once the end date is more than a year past, and from then on the first
  redraw raises (`Widgets.ConfiguredCountdownExpiry`).
- Direction 3 of the bar hands a float width to the module's `fillrect`.
  There, `range` raises a TypeError, so that direction always fails after the
  clear and draws no frame (`Widgets.BarCountdownOutcome`).
- The bar fraction and the percentage are not clamped. The model only proves
  they stay in range while the remainder is within one period.
- The second `DD` replacement can never match (`Formatting.ShortDayReplaceIsNoOp`),
  so a lone `D` survives (`Formatting.LoneDayLetterSurvives`).
- The countdown's black box is `len(format) * 5` by 8 pixels, not scaled with
  the text.
- Face circles are drawn in the pre-pass and again on every redraw
  (`Engine.StaticPassIsFaceRedraw`).
- The backlight is off exactly when `(h + 2) % 24 > 0 and h + 2 < 10`, where
  `h` is the hour `time.localtime()` gives. That is hours 0 to 7 of `h`, or
  2:00 to 9:59 in the zone shifted by `sleep_timezone = 2`
  (`Engine.BacklightSchedule`). The configured window `[0, 10)` loses the
  shifted hours 0 and 1: the strict `>` drops hour 0, and the missing modulo
  on the second test drops hour 1.

## Model

| member | source | states |
|---|---|---|
| PyText.Replace | main.py:214-224 | `str.replace`: every occurrence of the pattern, scanned left to right without overlap, is replaced; its properties are the `Replace…` lemmas |
| PyText.Split | main.py:177-179 | `str.split(sep)` on one character, keeping empty pieces; there is always at least one piece, and `JoinSplit` is its inverse |
| PyText.ParseInt | main.py:178-179 | `int()` of a decimal text with an optional sign, `None` for text it refuses; `StrRoundTrip` and `ZeroPaddedRoundTrip` connect it to `str` and `format` |
| PyText.ReplaceAbsent | main.py:214-224 | `replace` of a pattern that does not occur returns the text unchanged |
| PyText.ReplaceRemovesChar | main.py:279-283 | replacing a single letter by text without that letter leaves none of it |
| PyText.ReplaceRemovesPair | main.py:214-224 | replacing a doubled letter (`YY`, `DD`, `mm`, `SS`) by non-empty text without that letter leaves no such pair |
| PyText.ReplaceSkipsPrefix | main.py:214-224 | text before the first possible match of the pattern is kept as is |
| PyText.ReplaceChars | main.py:214-224 | every character of the result comes from the text or the replacement |
| PyText.JoinSplit | main.py:177-179 | joining the pieces of `split(sep)` with `sep` gives the text back, and no piece contains `sep` |
| PyText.SplitWithoutSeparator | main.py:177-179 | text without the separator splits into itself alone |
| PyText.SplitAtFirst | main.py:177-179 | `split` cuts at the first separator and splits the rest the same way |
| PyText.NatDigits | main.py:279-283 | `str` of a natural number is non-empty and made of digits |
| PyText.NatDigitsValue | main.py:279-283 | the decimal digits of `n` read back as `n`, and there is one digit exactly when `n < 10` |
| PyText.Str | main.py:279-283 | `str(n)` is non-empty, made of digits and minus signs, and of digits only for `n >= 0` |
| PyText.ZeroPadded | main.py:214-224 | `"{:0w}".format(n)` has length `max(w, len(str(n)))`, starts with `-` exactly for negative `n`, and holds only digits and signs |
| PyText.StrRoundTrip | main.py:178-179 | `int(str(n)) == n` for every integer |
| PyText.ZeroPaddedRoundTrip | main.py:178-179 | `int` of a zero-padded number gives the number back, for every width |
| Timestamps.ParseDate | main.py:177-179 | the two `split`s, the three-way unpackings and the six `int()` calls, a ValueError for any of them failing; `ParseDateString` is its inverse |
| Timestamps.DateToTimestamp | main.py:175-187 | fails with a ValueError exactly when the date text does not parse; for any text that parses, the timestamp is `mktime` of the parsed fields plus `timezone * 3600` |
| Timestamps.ParseDateString | main.py:177-179 | parsing undoes the `YYYY-MM-DDThh:mm:ss` layout for every date with non-negative fields |
| Timestamps.TimestampOfDateString | main.py:181-187 | a well-formed date's timestamp is `mktime` of its fields plus `timezone * 3600` |
| Timestamps.TimezoneHourShift | main.py:185 | one more hour of offset moves the timestamp by exactly 3600 seconds and does not change whether it fails |
| Timestamps.ConfiguredEndDate | main.py:40 | the configured end date `2024-10-31T00:00:00` parses to its six fields |
| Formatting.LocalHour | main.py:207-211 | the local hour agrees with `hour + timezone` modulo 24, lies in 0..23 for in-range inputs, and is the plain sum when that is already in range |
| Formatting.FormatDateTime | main.py:214-224 | the ten replacements in source order; its properties are `ShortDayReplaceIsNoOp`, `DateTimeTokensConsumed` and `LoneDayLetterSurvives` |
| Formatting.FormatCountdown | main.py:279-283 | the four single-letter replacements `D`, `H`, `M`, `S` in source order; `CountdownTokensConsumed` states what it removes |
| Formatting.ShortDayReplaceIsNoOp | main.py:219-220 | the second `DD` replacement never changes anything |
| Formatting.DateTimeTokensConsumed | main.py:214-224 | the formatted time contains no `YY`, `M`, `DD`, `H`, `mm` or `SS` |
| Formatting.LoneDayLetterSurvives | main.py:214-224 | a lone `D` is left in the output: the unpadded day is never produced |
| Formatting.TimeOfDayExample | main.py:24 | the configured `HH:mm:SS` reads `01:05:09` at 23:05:09 with timezone +2 |
| Formatting.CountdownTokensConsumed | main.py:279-283 | the countdown text contains no `D`, `H`, `M` or `S` |
| Formatting.DaysLeftExample | main.py:42 | the configured `Dd` format with three days left reads `3d` |
| Countdown.Remaining | main.py:262-267 | without repetition or when not yet expired the remainder is `end - now`; otherwise it is shifted by exactly one period, and is non-negative exactly when at most one period overdue |
| Countdown.Decompose | main.py:270-276 | a non-negative remainder splits into in-range days, hours, minutes and seconds that add back to it; a negative one fails with the unpacking error |
| Countdown.DecomposeSeconds | main.py:270-274 | the split is the only in-range one: decomposing the seconds of in-range parts gives them back |
| Countdown.ExpiredCountdown | main.py:262-276 | an expired countdown without repetition always fails; with repetition it fails exactly when more than one period overdue |
| Countdown.DayFraction | main.py:306 | the fraction times `86400 * repetition` is the remainder |
| Countdown.Fullness | main.py:306-308 | fails with ZeroDivisionError exactly when the repetition is zero; otherwise the value times `86400 * repetition` is the remainder, or for an odd `countup` one minus the value is |
| Countdown.FullnessInUnitInterval | main.py:306-308 | while the remainder lies within one positive period, the fullness lies in [0, 1], whichever way `countup` flips it |
| Countdown.CountupComplements | main.py:307-308 | an odd `countup` shows the complement of an even one |
| Countdown.Percentage | main.py:339-341 | fails with ZeroDivisionError exactly when the repetition is zero; otherwise the value times `86400 * repetition` is a hundred times the remainder, or for an odd `countup` a hundred minus the value is |
| Countdown.PercentageIsHundredfold | main.py:339-341 | the percentage is a hundred times the bar's fullness, flip included |
| Countdown.BarFill | main.py:310-317 | per `direction % 4`, the filled part grows from the bottom, the left, the top or the right edge, with the fraction applied to the height or the width |
| Countdown.BarFillInsideBar | main.py:310-317 | for a fraction in [0, 1] the filled part lies inside the bar |
| Hands.PyMod | main.py:383-384 | Python's `%`: in [0, b) for positive `b`, in (b, 0] for negative `b`, and `a == (a // b) * b + a % b` |
| Hands.PyModUnique | main.py:383-384 | the remainder is the only value in the divisor's range that differs from `a` by a multiple of `b` |
| Hands.CycleSeconds | main.py:381 | the seconds count `(hour + timezone) * 3600 + minute * 60 + second`, the hour offset not reduced modulo 24 |
| Hands.HandAngle | main.py:383-384 | fails with ZeroDivisionError exactly for a zero period; otherwise the angle lies in [-90, 270) |
| Hands.HandAnglePeriodic | main.py:383 | a whole period later the hand shows the same angle |
| Hands.HandAdvancesOneStep | main.py:381-384 | each second the hand is `360 / duration` degrees past where it was the second before, except where a period starts, where it points up (-90) |
| Hands.MinuteHandIgnoresHour | main.py:117 | the 3600-second hand of the configuration shows the same angle whatever the hour and timezone |
| Hands.HourHandHalfDay | main.py:126 | the 43200-second hand does not move when the timezone shifts by twelve hours |
| Hands.SecondHandQuarters | main.py:108 | the 60-second hand points right at 15 s and left at 45 s |
| Widgets.LinesDrawing | main.py:197-199 | the module's `fillrect`: one vertical line per column for an integer width, a TypeError before any line for a float width |
| Widgets.VLinesColumns | main.py:197-199 | `fillrect` draws exactly one vertical line per column, line `i` at `x + i` |
| Widgets.FillRectByLines | main.py:197-199 | appends the lines of `LinesDrawing`; a float width raises before drawing anything |
| Widgets.DrawAnalogHand | main.py:189-195 | appends one line from the centre to the point `radius` away at the angle |
| Widgets.DigitalDateTimeDrawing | main.py:202-227 | the black clear of `len(format) * 5 * scale` by `8 * scale`, then the formatted local time; `DigitalDateTimeReadout` states its properties |
| Widgets.DrawDigitalDateTime | main.py:202-227 | appends the black clear and then the formatted local time |
| Widgets.DigitalDateTimeReadout | main.py:202-227 | the readout never fails, clears in black first, and writes text with every placeholder consumed |
| Widgets.FaceCommands | main.py:231-247 | the rim, then the notches for style 2 or 3, then the labels for style 1 or 3; `TicksShape`, `LabelsShape` and `FaceCommandCount` state their shape |
| Widgets.DrawFaceCircle | main.py:231-247 | appends the rim, the notches when `style` is 2 or 3, and the labels when `style` is 1 or 3 |
| Widgets.DrawTicks | main.py:234-240 | appends the `notches` notch lines, in order |
| Widgets.DrawLabels | main.py:242-247 | appends the labels `1` to `notches`, in order |
| Widgets.TicksShape | main.py:235-240 | there are `k` notches, and notch `i` runs from `radius - length` to `radius` at `(360 / notches) * i` degrees |
| Widgets.LabelsShape | main.py:243-247 | there are `k` labels, and label `i + 1` is `str(i + 1)` placed `length + 5` inside the rim at `(360 / notches) * (i + 1) - 90` degrees |
| Widgets.TickAnglesWithinTurn | main.py:235-236 | the notch angles lie in [0, 360) and are evenly spaced |
| Widgets.LastLabelAtTop | main.py:243-244 | the last label sits at 270 degrees, where a hand points at the start of its period |
| Widgets.FaceCommandCount | main.py:231-247 | the face draws the rim plus `notches` commands per selected part, rim first |
| Widgets.ConfiguredCountdownExpiry | main.py:38-47 | the configured countdown (end 2024-10-31, repetition 365, format `Dd`, timezone +2) draws its text exactly while at most one period overdue, and otherwise fails in the unpacking fallback |
| Widgets.CountdownTimerDrawing | main.py:251-286 | the unscaled clear, then the date conversion, the remainder, the split and the text, stopping at the first exception; `CountdownTimerOutcome` states its cases |
| Widgets.DrawCountdownTimer | main.py:251-286 | appends the clear and, on success, the countdown text; returns the exception that stopped it |
| Widgets.CountdownTimerOutcome | main.py:251-286 | a malformed date fails after the clear; a negative remainder fails in the fallback; otherwise the text is the format filled in with the unique in-range split |
| Widgets.BarCountdownDrawing | main.py:288-319 | the clear, the date conversion, the fullness, the fill chosen by `direction % 4` and the white frame, stopping at the first exception; `BarCountdownOutcome` states its cases |
| Widgets.DrawBarCountdown | main.py:288-319 | appends the clear, the filled part and the white frame; returns the exception that stopped it |
| Widgets.BarCountdownOutcome | main.py:288-319 | the bar succeeds exactly when the date parses, the repetition is non-zero and the direction is not 3; direction 3 fails after the clear with no frame; on success it draws clear, fill and frame, with the fill inside the frame while within one period |
| Widgets.PercentCountdownDrawing | main.py:321-343 | the `24 + decimals * 8` clear, the date conversion, the percentage and its text, a negative precision raising; `PercentCountdownOutcome` states its cases |
| Widgets.DrawPercentCountdown | main.py:321-343 | appends the clear and, on success, the percentage text; returns the exception that stopped it |
| Widgets.PercentCountdownOutcome | main.py:321-343 | succeeds exactly when the date parses, the repetition is non-zero and `decimals` is not negative; the value written is a hundred times the fullness |
| Engine.ComponentDrawing | main.py:378-445 | the `if`/`elif` dispatch on the component type, an unknown type drawing nothing; `UnrecognisedSkipped` states that case |
| Engine.Pass | main.py:378-445 | one redraw: the components' drawings in configuration order up to and including the first that raises; `PassAppend` and `SilentComponentSkipped` state its structure |
| Engine.DrawComponent | main.py:378-445 | appends what the component's routine draws and returns its exception |
| Engine.Redraw | main.py:378-445 | appends the components' drawings in configuration order, stopping at the first exception, and returns it |
| Engine.PassAppend | main.py:378-445 | a redraw of `a + b` is the redraw of `a` followed, unless `a` raised, by the redraw of `b` |
| Engine.SilentComponentSkipped | main.py:378-445 | a component that draws nothing and raises nothing can be removed from any redraw |
| Engine.UnrecognisedSkipped | main.py:378-445 | an entry of an unknown type changes no redraw |
| Engine.HandDrawing | main.py:379-396 | the erase at the previous second's angle in colour 0 and the draw at the current angle; `AnalogHandRedraw` states it |
| Engine.AnalogHandRedraw | main.py:379-396 | the hand raises only for a zero period; otherwise it draws over the previous second's hand in colour 0, then the current one, one step further on |
| Engine.Faces | main.py:352-353 | the `type == 'face_circle'` filter: every element of the result is a face circle of the list, every face circle of the list is in the result, and the result is no longer than the list |
| Engine.FacesAppend | main.py:352-353 | filtering distributes over concatenation, so the face circles keep their configuration order |
| Engine.StaticPass | main.py:351-361 | the pre-pass over the list drawing each face circle; `StaticPassIsFaceRedraw` ties it to `Faces` and `Pass` |
| Engine.DrawStaticFace | main.py:351-361 | the pre-pass appends every face circle's drawing, in order |
| Engine.StaticPassIsFaceRedraw | main.py:351-361 | the pre-pass draws exactly what a redraw of the face circles alone draws, at any time |
| Engine.BacklightOff | main.py:368 | the backlight test as written, with `Sleep = [0, 10]` and `sleep_timezone = 2` (main.py:452-453); `BacklightSchedule` states which hours it covers |
| Engine.BacklightSchedule | main.py:368-371 | for a local hour 0..23 the backlight is off exactly from 0 to 7 o'clock |
| Engine.RendererRenders | main.py:378-445 | the component dispatch is a valid renderer for the redraw and loop methods |
| Engine.Turn | main.py:367-445 | one turn of the loop: the backlight setting, then the 1000 ms gate and, past it, a redraw with `last_update_time` moved; `RunGate` states it |
| Engine.Run | main.py:366-449 | the loop over a finite list of turns, stopping at the first exception; `RunStopsAtFailure`, `RunBacklight` and `RunLastUpdate` state its properties |
| Engine.Session | main.py:347-449 | the whole of `draw_clock`: setup, the `components[0]['position']` lookup and the loop; `DrawClock` is proved against it |
| Engine.Loop | main.py:366-449 | runs the given turns of the loop: sets the backlight every turn and redraws when 1000 ms have passed, stopping at the first exception |
| Engine.DrawClock | main.py:347-449 | rotation, background and the static face come first; an empty component list or a first entry without a position raises; then the loop runs |
| Engine.RunStopsAtFailure | main.py:366-449 | once a turn has raised, later turns change nothing |
| Engine.RunBacklight | main.py:366-371 | every turn up to the one that raised records its own backlight setting |
| Engine.RunLastUpdate | main.py:363-376 | `last_update_time` is the start value or the tick count of some turn, and it has moved past `ticks0 + 1000` once anything was drawn |
| Engine.RunLastUpdateGrows | main.py:375-376 | `last_update_time` never decreases from one turn to the next |
| Engine.RunGate | main.py:375-376 | a turn redraws and moves `last_update_time` exactly when at least 1000 ms have passed since the last update; otherwise it only sets the backlight |
| Screen.Tft.constructor | main.py:14 | a new display has an empty log |
| Screen.Tft.Rotate | main.py:348 | `tft.rotation` appends one rotation command and changes nothing else |
| Screen.Tft.Fill | main.py:349 | `tft.fill` appends one background command and changes nothing else |
| Screen.Tft.FillArea | main.py:203 | `tft.fillrect` appends one filled-rectangle command and changes nothing else |
| Screen.Tft.DrawVLine | main.py:199 | `tft.vline` appends one vertical-line command and changes nothing else |
| Screen.Tft.DrawFrame | main.py:319 | `tft.rect` appends one frame command and changes nothing else |
| Screen.Tft.DrawLine | main.py:195 | `tft.line` appends one line command and changes nothing else |
| Screen.Tft.DrawText | main.py:227 | `tft.text` appends one text command and changes nothing else |
| Screen.Tft.DrawPercent | main.py:343 | `tft.text` of the formatted percentage appends one command with the value and precision and changes nothing else |
| Screen.Tft.DrawCircle | main.py:233 | `tft.circle` appends one circle command and changes nothing else |

## Left out

- WiFi, NTP and `fetch_time` (main.py:158-172) are network I/O and are not part of this model.
- `json.loads` of the configuration is not modelled. The configuration is a typed `Config` value, with positions as points and `size` split into a width and a height.
- A configuration entry of a known type that lacks one of its keys would raise a KeyError. The model's components always carry their keys.
- An entry without a `type` key would also raise a KeyError. The model has no such entry.
- `style`, `notches` and the other numeric configuration values are integers. Float values from the JSON are not modelled.
- The trigonometry of `draw_analog_hand`, `draw_face_circle` and their `int()` truncations is kept symbolic. A command records the centre, radius and angle (`OnCircle`, `LabelSpot`), not the pixel it lands on.
- The decimal rendering of `f"{fullness:.{decimals}f}%"` is not modelled. The command records the exact value and the precision.
- The st7735 driver's rendering, its font and its colour constants (`TFT.BLACK`, `TFT.WHITE`) belong to the driver and are not part of this model.
- The analog hand's `width` key is never read by the source and is not kept.
- `time.localtime()`, `time.time()` and `ticks_ms()` are inputs, given per loop turn as a `Moment`.
  - The source re-reads the clock for each component; the model takes one clock reading per redraw pass.
  - `time.time()` is taken as an integer, as it is on MicroPython.
- `ticks_ms()` is an unbounded integer: its wrap-around and `ticks_diff` are not modelled.
- `while True` runs forever. The model runs it over any finite list of turns, and `Engine.RunStopsAtFailure` covers everything after an exception.
- `time.sleep(0.01)` does not affect any state and is left out.
- The backlight `Pin` is not modelled as hardware. Each turn's on/off setting is an output (`Outcome.backlight`).
- Python floats are exact `real` numbers: the `/` of main.py:306 and 339, the `360 / duration` of main.py:383-384 and the bar's fractional corners carry no rounding, so float rounding is not modelled.
- `time.mktime` is a function parameter: the calendar arithmetic belongs to the runtime.
- `PyText.Replace` requires a non-empty pattern; every call in the source uses a non-empty literal. Python's rule for an empty pattern is not modelled.
- `PyText.ParseInt` accepts an optional sign followed by ASCII digits. The whitespace and underscores Python's `int()` also accepts are not modelled.
