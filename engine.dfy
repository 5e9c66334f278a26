/** `draw_clock` (main.py:347-449): set up the display, draw the face
    circles once, then loop: switch the backlight by the local hour and,
    once at least 1000 ms have passed since the last update, redraw every
    component in configuration order. */
module Engine {
  import opened Errors
  import opened Timestamps
  import opened Countdown
  import opened Hands
  import opened Screen
  import opened Widgets

  /** One entry of `config['components']`, by its `type`. The analog hand's
      `width` is never read by the source and is not kept. An entry of any
      other type is `Unrecognised`; it may lack a `position`. */
  datatype Component =
    | AnalogHand(position: Point, length: int, duration: int, color: Color, timezone: int)
    | DigitalDateTime(position: Point, color: Color, timezone: int, format: string, scale: int)
    | FaceCircle(position: Point, radius: int, notches: int, color: Color, style: int, length: int)
    | CountdownTimer(position: Point, color: Color, endDate: string, repetition: int,
                     format: string, timezone: int, scale: int)
    | BarCountdown(position: Point, color: Color, endDate: string, width: int, height: int,
                   countup: int, timezone: int, repetition: int, direction: int)
    | PercentCountdown(position: Point, color: Color, endDate: string, decimals: int,
                       countup: int, timezone: int, repetition: int, scale: int)
    | Unrecognised(kind: string, place: Option<Point>)

  datatype Config = Config(orientation: int, background: int, components: seq<Component>)

  /** What the runtime reports during one redraw: `time.localtime()` and
      `time.time()`. */
  datatype Clock = Clock(local: DateFields, now: int)

  /** One turn of the `while True` loop: the local time read for the
      backlight, `ticks_ms()`, and the clock seen by a redraw. */
  datatype Moment = Moment(led: DateFields, ticks: int, clock: Clock)

  /** `Sleep = [0, 10]` and `sleep_timezone = 2`, main.py:452-453. */
  const SleepStart := 0
  const SleepEnd := 10
  const SleepTimezone := 2

  /** The redraw period of main.py:375, in milliseconds. */
  const UpdateInterval := 1000

  // ------------------------------------------------------------ one redraw

  /** The analog-hand branch of main.py:379-396: both angles are computed
      first, then the previous second's hand is drawn over in colour 0 and
      the current one in the hand's colour. */
  function HandDrawing(c: Component, clock: Clock): Drawing
    requires c.AnalogHand?
  {
    var t := clock.local;
    var seconds := CycleSeconds(t.hour, c.timezone, t.minute, t.second);
    match (HandAngle(seconds, c.duration), HandAngle(seconds - 1, c.duration))
    case (Ok(angle), Ok(previous)) =>
      Drawing([Line(At(c.position), OnCircle(c.position, c.length, previous), Rgb(0)),
               Line(At(c.position), OnCircle(c.position, c.length, angle), c.color)], None)
    case _ => Drawing([], Some(ZeroDivision))
  }

  /** The `if`/`elif` dispatch of main.py:378-445 for one component. */
  function ComponentDrawing(mktime: MakeTime, c: Component, clock: Clock): Drawing {
    match c
    case AnalogHand(_, _, _, _, _) => HandDrawing(c, clock)
    case DigitalDateTime(position, color, timezone, format, scale) =>
      DigitalDateTimeDrawing(position, color, timezone, format, scale, clock.local)
    case FaceCircle(position, radius, notches, color, style, length) =>
      Drawing(FaceCommands(position, radius, notches, color, style, length), None)
    case CountdownTimer(position, color, endDate, repetition, format, timezone, scale) =>
      CountdownTimerDrawing(mktime, position, color, endDate, repetition, format, timezone, scale, clock.now)
    case BarCountdown(position, color, endDate, width, height, countup, timezone, repetition, direction) =>
      BarCountdownDrawing(mktime, position, color, endDate, width, height, countup, timezone, repetition,
                          direction, clock.now)
    case PercentCountdown(position, color, endDate, decimals, countup, timezone, repetition, scale) =>
      PercentCountdownDrawing(mktime, position, color, endDate, decimals, countup, timezone, repetition,
                              scale, clock.now)
    case Unrecognised(_, _) => Drawing([], None)
  }

  /** The drawing routine of every component at every clock reading. */
  function Renderer(mktime: MakeTime): Clock -> Component -> Drawing {
    clock => c => ComponentDrawing(mktime, c, clock)
  }

  /** `render` draws every component as `ComponentDrawing` does. The
      methods below are stated for any such `render`, which keeps the
      component routines out of the reasoning about the loops. */
  ghost predicate Renders(mktime: MakeTime, render: Clock -> Component -> Drawing) {
    forall clock, c {:trigger ComponentDrawing(mktime, c, clock)} ::
      render(clock)(c) == ComponentDrawing(mktime, c, clock)
  }

  lemma RendererRenders(mktime: MakeTime)
    ensures Renders(mktime, Renderer(mktime))
  {
  }

  /** A redraw of the components in order, each drawn by `draw`; the first
      exception ends it. */
  function Pass(draw: Component -> Drawing, cs: seq<Component>): Drawing
    decreases |cs|
  {
    if cs == [] then Drawing([], None)
    else
      var before := Pass(draw, cs[..|cs| - 1]);
      if before.failure.Some? then before
      else
        var d := draw(cs[|cs| - 1]);
        Drawing(before.cmds + d.cmds, d.failure)
  }

  method DrawComponent(tft: Tft, mktime: MakeTime, ghost render: Clock -> Component -> Drawing,
                       clock: Clock, c: Component)
    returns (failure: Option<Failure>)
    requires Renders(mktime, render)
    modifies tft
    ensures tft.log == old(tft.log) + render(clock)(c).cmds
    ensures failure == render(clock)(c).failure
  {
    assert render(clock)(c) == ComponentDrawing(mktime, c, clock);
    match c
    case AnalogHand(position, length, duration, color, timezone) =>
      var t := clock.local;
      var seconds := CycleSeconds(t.hour, timezone, t.minute, t.second);
      var previousSeconds := seconds - 1;
      var angle := HandAngle(seconds, duration);
      var previous := HandAngle(previousSeconds, duration);
      if angle.Err? || previous.Err? {
        return Some(ZeroDivision);
      }
      DrawAnalogHand(tft, Rgb(0), position, length, previous.value);
      DrawAnalogHand(tft, color, position, length, angle.value);
      return None;
    case DigitalDateTime(position, color, timezone, format, scale) =>
      DrawDigitalDateTime(tft, position, color, timezone, format, scale, clock.local);
      return None;
    case FaceCircle(position, radius, notches, color, style, length) =>
      DrawFaceCircle(tft, position, radius, notches, color, style, length);
      return None;
    case CountdownTimer(position, color, endDate, repetition, format, timezone, scale) =>
      failure := DrawCountdownTimer(tft, mktime, position, color, endDate, repetition, format, timezone,
                                    scale, clock.now);
    case BarCountdown(position, color, endDate, width, height, countup, timezone, repetition, direction) =>
      failure := DrawBarCountdown(tft, mktime, position, color, endDate, width, height, countup, timezone,
                                  repetition, direction, clock.now);
    case PercentCountdown(position, color, endDate, decimals, countup, timezone, repetition, scale) =>
      failure := DrawPercentCountdown(tft, mktime, position, color, endDate, decimals, countup, timezone,
                                      repetition, scale, clock.now);
    case Unrecognised(_, _) =>
      return None;
  }

  /** The `for component in config['components']` loop of main.py:378-445. */
  method Redraw(tft: Tft, mktime: MakeTime, ghost render: Clock -> Component -> Drawing,
                clock: Clock, cs: seq<Component>)
    returns (failure: Option<Failure>)
    requires Renders(mktime, render)
    modifies tft
    ensures tft.log == old(tft.log) + Pass(render(clock), cs).cmds
    ensures failure == Pass(render(clock), cs).failure
  {
    ghost var draw := render(clock);
    ghost var done := Pass(draw, []);
    var i := 0;
    while i < |cs|
      invariant 0 <= i <= |cs|
      invariant done == Pass(draw, cs[..i])
      invariant done.failure == None
      invariant tft.log == old(tft.log) + done.cmds
    {
      ghost var d := draw(cs[i]);
      ghost var next := Drawing(done.cmds + d.cmds, d.failure);
      assert cs[..i + 1][..i] == cs[..i];
      assert Pass(draw, cs[..i + 1]) == next;
      failure := DrawComponent(tft, mktime, render, clock, cs[i]);
      done := next;
      if failure.Some? {
        PassAppend(draw, cs[..i + 1], cs[i + 1..]);
        assert cs[..i + 1] + cs[i + 1..] == cs;
        assert Pass(draw, cs) == next;
        return;
      }
      i := i + 1;
    }
    assert cs[..|cs|] == cs;
    return None;
  }

  /** A redraw of `a + b` is the redraw of `a` followed, if `a` raised
      nothing, by the redraw of `b`. */
  lemma {:induction false} PassAppend(draw: Component -> Drawing, a: seq<Component>, b: seq<Component>)
    ensures Pass(draw, a + b)
      == if Pass(draw, a).failure.Some? then Pass(draw, a)
         else Drawing(Pass(draw, a).cmds + Pass(draw, b).cmds, Pass(draw, b).failure)
    decreases |b|
  {
    if b == [] {
      assert a + b == a;
    } else {
      var b' := b[..|b| - 1];
      assert (a + b)[..|a + b| - 1] == a + b';
      assert (a + b)[|a + b| - 1] == b[|b| - 1];
      PassAppend(draw, a, b');
    }
  }

  /** A component that draws nothing and raises nothing can be removed
      from any redraw. */
  lemma SilentComponentSkipped(draw: Component -> Drawing, a: seq<Component>, u: Component, b: seq<Component>)
    requires draw(u) == Drawing([], None)
    ensures Pass(draw, a + [u] + b) == Pass(draw, a + b)
  {
    PassAppend(draw, a, [u]);
    PassAppend(draw, a + [u], b);
    PassAppend(draw, a, b);
    assert [u][..0] == [];
  }

  /** A component of an unknown type draws nothing and raises nothing, so
      removing it changes no redraw. */
  lemma UnrecognisedSkipped(mktime: MakeTime, render: Clock -> Component -> Drawing,
                            a: seq<Component>, u: Component, b: seq<Component>, clock: Clock)
    requires Renders(mktime, render) && u.Unrecognised?
    ensures Pass(render(clock), a + [u] + b) == Pass(render(clock), a + b)
  {
    assert render(clock)(u) == ComponentDrawing(mktime, u, clock);
    SilentComponentSkipped(render(clock), a, u, b);
  }

  // ----------------------------------------------------- the static face

  /** The face circles of a component list, in order. */
  function Faces(cs: seq<Component>): (fs: seq<Component>)
    ensures forall c | c in fs :: c.FaceCircle? && c in cs
    ensures forall c | c in cs && c.FaceCircle? :: c in fs
    ensures |fs| <= |cs|
    decreases |cs|
  {
    if cs == [] then []
    else
      var last := cs[|cs| - 1];
      Faces(cs[..|cs| - 1]) + (if last.FaceCircle? then [last] else [])
  }

  /** Filtering distributes over concatenation, so the face circles keep
      their configuration order. */
  lemma {:induction false} FacesAppend(a: seq<Component>, b: seq<Component>)
    ensures Faces(a + b) == Faces(a) + Faces(b)
    decreases |b|
  {
    if b == [] {
      assert a + b == a;
    } else {
      var init, last := b[..|b| - 1], b[|b| - 1];
      var tail := if last.FaceCircle? then [last] else [];
      FacesAppend(a, init);
      assert (a + b)[..|a + b| - 1] == a + init;
      assert (a + b)[|a + b| - 1] == last;
      calc {
        Faces(a + b);
        Faces(a + init) + tail;
        Faces(a) + Faces(init) + tail;
        Faces(a) + (Faces(init) + tail);
        Faces(a) + Faces(b);
      }
    }
  }

  /** The pre-pass of main.py:352-361: every face circle, in order. */
  function StaticPass(cs: seq<Component>): seq<Command>
    decreases |cs|
  {
    if cs == [] then []
    else
      var last := cs[|cs| - 1];
      StaticPass(cs[..|cs| - 1])
        + (if last.FaceCircle? then FaceCommands(last.position, last.radius, last.notches, last.color, last.style, last.length)
           else [])
  }

  method DrawStaticFace(tft: Tft, cs: seq<Component>)
    modifies tft
    ensures tft.log == old(tft.log) + StaticPass(cs)
  {
    var i := 0;
    while i < |cs|
      invariant 0 <= i <= |cs|
      invariant tft.log == old(tft.log) + StaticPass(cs[..i])
    {
      assert cs[..i + 1][..i] == cs[..i];
      var c := cs[i];
      if c.FaceCircle? {
        DrawFaceCircle(tft, c.position, c.radius, c.notches, c.color, c.style, c.length);
      }
      i := i + 1;
    }
    assert cs[..|cs|] == cs;
  }

  /** The pre-pass draws exactly what a redraw of the face circles alone
      draws, at any time: the face circles are drawn again, identically, on
      every redraw. */
  lemma {:induction false} StaticPassIsFaceRedraw(mktime: MakeTime, cs: seq<Component>, clock: Clock)
    ensures Pass(Renderer(mktime)(clock), Faces(cs)) == Drawing(StaticPass(cs), None)
    decreases |cs|
  {
    if cs != [] {
      var init, last := cs[..|cs| - 1], cs[|cs| - 1];
      StaticPassIsFaceRedraw(mktime, init, clock);
      if last.FaceCircle? {
        var draw := Renderer(mktime)(clock);
        assert draw(last) == Drawing(FaceCommands(last.position, last.radius, last.notches, last.color,
                                                  last.style, last.length), None);
        PassAppend(draw, Faces(init), [last]);
        assert [last][..0] == [];
      } else {
        assert Faces(cs) == Faces(init);
      }
    }
  }

  // ------------------------------------------------------------ the loop

  /** The test of main.py:368: true exactly when the source turns the
      backlight off. */
  predicate BacklightOff(hour: int) {
    (hour + SleepTimezone) % 24 > SleepStart && hour + SleepTimezone < SleepEnd
  }

  /** For a local hour 0..23 the backlight is off from 0 to 7 o'clock and on
      otherwise. */
  lemma BacklightSchedule(hour: int)
    requires 0 <= hour < 24
    ensures BacklightOff(hour) <==> hour <= 7
  {
  }

  /** The state after some turns of the loop: the commands drawn, the
      backlight setting of each turn (true for on), `last_update_time`, and
      the exception that ended the loop, if any. */
  datatype Outcome = Outcome(log: seq<Command>, backlight: seq<bool>, last: int, failure: Option<Failure>)

  /** The turns of the `while True` loop of main.py:366-449 over the given
      moments, starting from `last_update_time = ticks0`; a redraw is a
      pass over `cs` drawn by `render` at the moment's clock. */
  function Run(render: Clock -> Component -> Drawing, cs: seq<Component>, ticks0: int, ms: seq<Moment>): Outcome
    decreases |ms|
  {
    if ms == [] then Outcome([], [], ticks0, None)
    else
      var o := Run(render, cs, ticks0, ms[..|ms| - 1]);
      if o.failure.Some? then o else Turn(render, cs, o, ms[|ms| - 1])
  }

  /** One turn of the loop after `o`: set the backlight, then redraw if at
      least 1000 ms have passed since `last_update_time`. */
  function Turn(render: Clock -> Component -> Drawing, cs: seq<Component>, o: Outcome, m: Moment): Outcome {
    var backlight := o.backlight + [!BacklightOff(m.led.hour)];
    if m.ticks - o.last >= UpdateInterval then
      var d := Pass(render(m.clock), cs);
      Outcome(o.log + d.cmds, backlight, m.ticks, d.failure)
    else Outcome(o.log, backlight, o.last, None)
  }

  /** The commands `draw_clock` issues before its loop. */
  function Setup(cfg: Config): seq<Command> {
    [SetRotation(cfg.orientation), FillScreen(Rgb(cfg.background))] + StaticPass(cfg.components)
  }

  /** The whole of `draw_clock`: rotation, background, the static face, the
      lookup `config['components'][0]['position']` (an empty list or a first
      entry without a position raises), then the loop. */
  function Session(render: Clock -> Component -> Drawing, cfg: Config, ticks0: int, ms: seq<Moment>): Outcome {
    if cfg.components == [] then Outcome(Setup(cfg), [], ticks0, Some(NoComponents))
    else if cfg.components[0].Unrecognised? && cfg.components[0].place.None? then
      Outcome(Setup(cfg), [], ticks0, Some(MissingPosition))
    else
      var r := Run(render, cfg.components, ticks0, ms);
      Outcome(Setup(cfg) + r.log, r.backlight, r.last, r.failure)
  }

  /** `draw_clock()`, run for the given turns of its loop, with
      `Renderer(mktime)` (or any `render` that agrees with it) drawing the
      components. */
  method DrawClock(tft: Tft, mktime: MakeTime, ghost render: Clock -> Component -> Drawing,
                   cfg: Config, ticks0: int, moments: seq<Moment>)
    returns (backlight: seq<bool>, last: int, failure: Option<Failure>)
    requires Renders(mktime, render)
    modifies tft
    ensures tft.log == old(tft.log) + Session(render, cfg, ticks0, moments).log
    ensures backlight == Session(render, cfg, ticks0, moments).backlight
    ensures last == Session(render, cfg, ticks0, moments).last
    ensures failure == Session(render, cfg, ticks0, moments).failure
  {
    tft.Rotate(cfg.orientation);
    tft.Fill(Rgb(cfg.background));
    DrawStaticFace(tft, cfg.components);
    if cfg.components == [] {
      return [], ticks0, Some(NoComponents);
    }
    if cfg.components[0].Unrecognised? && cfg.components[0].place.None? {
      return [], ticks0, Some(MissingPosition);
    }
    backlight, last, failure := Loop(tft, mktime, render, cfg.components, ticks0, moments);
  }

  /** The `while True` loop of main.py:366-449, for the given turns. */
  method Loop(tft: Tft, mktime: MakeTime, ghost render: Clock -> Component -> Drawing,
              cs: seq<Component>, ticks0: int, moments: seq<Moment>)
    returns (backlight: seq<bool>, last: int, failure: Option<Failure>)
    requires Renders(mktime, render)
    modifies tft
    ensures tft.log == old(tft.log) + Run(render, cs, ticks0, moments).log
    ensures backlight == Run(render, cs, ticks0, moments).backlight
    ensures last == Run(render, cs, ticks0, moments).last
    ensures failure == Run(render, cs, ticks0, moments).failure
  {
    last := ticks0;
    backlight := [];
    var k := 0;
    ghost var o := Run(render, cs, ticks0, []);
    while k < |moments|
      invariant 0 <= k <= |moments|
      invariant o == Run(render, cs, ticks0, moments[..k])
      invariant o.failure == None
      invariant tft.log == old(tft.log) + o.log
      invariant backlight == o.backlight && last == o.last
    {
      var m := moments[k];
      ghost var next := Turn(render, cs, o, m);
      assert moments[..k + 1][..k] == moments[..k];
      assert Run(render, cs, ticks0, moments[..k + 1]) == next;
      o := next;
      backlight := backlight + [!BacklightOff(m.led.hour)];
      if m.ticks - last >= UpdateInterval {
        last := m.ticks;
        failure := Redraw(tft, mktime, render, m.clock, cs);
        if failure.Some? {
          assert tft.log == old(tft.log) + next.log && failure == next.failure;
          RunStopsAtFailure(render, cs, ticks0, moments[..k + 1], moments[k + 1..]);
          assert moments[..k + 1] + moments[k + 1..] == moments;
          assert Run(render, cs, ticks0, moments) == next;
          return;
        }
      }
      k := k + 1;
    }
    assert moments[..|moments|] == moments;
    assert Run(render, cs, ticks0, moments) == o;
    failure := None;
  }

  /** Once a turn has raised, later moments change nothing. */
  lemma {:induction false} RunStopsAtFailure(render: Clock -> Component -> Drawing, cs: seq<Component>, ticks0: int,
                                             ms: seq<Moment>, rest: seq<Moment>)
    requires Run(render, cs, ticks0, ms).failure.Some?
    ensures Run(render, cs, ticks0, ms + rest) == Run(render, cs, ticks0, ms)
    decreases |rest|
  {
    if rest == [] {
      assert ms + rest == ms;
    } else {
      var rest' := rest[..|rest| - 1];
      assert (ms + rest)[..|ms + rest| - 1] == ms + rest';
      RunStopsAtFailure(render, cs, ticks0, ms, rest');
    }
  }

  /** Every turn up to the one that raised sets the backlight by its own
      local hour; without an exception there is one setting per turn. */
  lemma {:induction false} RunBacklight(render: Clock -> Component -> Drawing, cs: seq<Component>, ticks0: int, ms: seq<Moment>)
    ensures |Run(render, cs, ticks0, ms).backlight| <= |ms|
    ensures Run(render, cs, ticks0, ms).failure == None ==> |Run(render, cs, ticks0, ms).backlight| == |ms|
    ensures forall k | 0 <= k < |Run(render, cs, ticks0, ms).backlight| ::
      Run(render, cs, ticks0, ms).backlight[k] == !BacklightOff(ms[k].led.hour)
    decreases |ms|
  {
    if ms != [] {
      var init := ms[..|ms| - 1];
      RunBacklight(render, cs, ticks0, init);
      assert forall k | 0 <= k < |init| :: init[k] == ms[k];
    }
  }

  /** `last_update_time` is `ticks0` or the tick count of a turn, never
      below `ticks0`, and once anything was drawn it is at least 1000 ms
      past `ticks0`. */
  lemma {:induction false} RunLastUpdate(render: Clock -> Component -> Drawing, cs: seq<Component>, ticks0: int, ms: seq<Moment>)
    ensures Run(render, cs, ticks0, ms).last >= ticks0
    ensures Run(render, cs, ticks0, ms).last == ticks0
         || exists k | 0 <= k < |ms| :: Run(render, cs, ticks0, ms).last == ms[k].ticks
    ensures Run(render, cs, ticks0, ms).log != [] ==> Run(render, cs, ticks0, ms).last >= ticks0 + UpdateInterval
    decreases |ms|
  {
    if ms != [] {
      var init := ms[..|ms| - 1];
      RunLastUpdate(render, cs, ticks0, init);
      var o := Run(render, cs, ticks0, init);
      if o.last != ticks0 {
        var k :| 0 <= k < |init| && o.last == init[k].ticks;
        assert ms[k] == init[k];
      }
      if Run(render, cs, ticks0, ms).last != o.last {
        assert Run(render, cs, ticks0, ms).last == ms[|ms| - 1].ticks;
      }
    }
  }

  /** `last_update_time` never decreases from one turn to the next: it only
      moves to a tick count at least 1000 ms past it. */
  lemma RunLastUpdateGrows(render: Clock -> Component -> Drawing, cs: seq<Component>, ticks0: int,
                           ms: seq<Moment>, m: Moment)
    ensures Run(render, cs, ticks0, ms + [m]).last >= Run(render, cs, ticks0, ms).last
  {
    assert (ms + [m])[..|ms|] == ms;
  }

  /** The 1000 ms gate: a turn redraws, and moves `last_update_time` to its
      own tick count, only when it comes at least 1000 ms after the last
      update; otherwise it only sets the backlight. */
  lemma RunGate(render: Clock -> Component -> Drawing, cs: seq<Component>, ticks0: int, ms: seq<Moment>, m: Moment)
    requires Run(render, cs, ticks0, ms).failure == None
    ensures var before, after := Run(render, cs, ticks0, ms), Run(render, cs, ticks0, ms + [m]);
      after.backlight == before.backlight + [!BacklightOff(m.led.hour)]
      && (m.ticks - before.last >= UpdateInterval ==>
            after.last == m.ticks && after.log == before.log + Pass(render(m.clock), cs).cmds
            && after.failure == Pass(render(m.clock), cs).failure)
      && (m.ticks - before.last < UpdateInterval ==>
            after.last == before.last && after.log == before.log && after.failure == None)
  {
    assert (ms + [m])[..|ms + [m]| - 1] == ms;
  }

  /** The analog hand raises only for a zero period; otherwise it erases
      the previous second's hand and draws the current one, one step of
      `360 / duration` degrees further on except at the top of a period. */
  lemma AnalogHandRedraw(c: Component, clock: Clock)
    requires c.AnalogHand?
    ensures c.duration == 0 ==> HandDrawing(c, clock) == Drawing([], Some(ZeroDivision))
    ensures c.duration != 0 ==>
      var s := CycleSeconds(clock.local.hour, c.timezone, clock.local.minute, clock.local.second);
      HandDrawing(c, clock)
        == Drawing([Line(At(c.position), OnCircle(c.position, c.length, HandAngle(s - 1, c.duration).value), Rgb(0)),
                    Line(At(c.position), OnCircle(c.position, c.length, HandAngle(s, c.duration).value), c.color)],
                   None)
    ensures c.duration > 0 ==>
      var s := CycleSeconds(clock.local.hour, c.timezone, clock.local.minute, clock.local.second);
      PyMod(s, c.duration) != 0 ==>
        HandAngle(s, c.duration).value == HandAngle(s - 1, c.duration).value + 360.0 / c.duration as real
  {
    if c.duration > 0 {
      HandAdvancesOneStep(CycleSeconds(clock.local.hour, c.timezone, clock.local.minute, clock.local.second),
                          c.duration);
    }
  }
}
