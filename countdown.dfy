/** The countdown arithmetic shared by `draw_countdown_timer`,
    `draw_bar_countdown` and `draw_percentage_countdown`: the seconds left,
    the day/hour/minute/second split, the fill fraction and the filled part
    of a bar. Fractions are exact rationals (`real`). */
module Countdown {
  import opened Errors

  const SecondsPerDay := 86400

  /** `end - now`, moved ONCE by the repetition period when it is negative
      and the repetition is non-zero (main.py:262-267, 299-304, 332-337). */
  function Remaining(end: int, now: int, repetition: int): (r: int)
    ensures end - now >= 0 || repetition == 0 ==> r == end - now
    ensures end - now < 0 && repetition != 0 ==> r == end - now + repetition * SecondsPerDay
    ensures -repetition * SecondsPerDay <= end - now ==> r >= 0
    ensures repetition > 0 && end - now < -repetition * SecondsPerDay ==> r < 0
  {
    var r := end - now;
    if r < 0 && repetition != 0 then (end + repetition * SecondsPerDay) - now else r
  }

  datatype Parts = Parts(days: int, hours: int, minutes: int, seconds: int)

  /** Seconds of a `Parts` value. */
  function Seconds(p: Parts): int {
    p.days * SecondsPerDay + p.hours * 3600 + p.minutes * 60 + p.seconds
  }

  predicate InRange(p: Parts) {
    p.days >= 0 && 0 <= p.hours < 24 && 0 <= p.minutes < 60 && 0 <= p.seconds < 60
  }

  lemma SplitArithmetic(r: nat)
    ensures (r % SecondsPerDay) / 3600 < 24
    ensures (r / SecondsPerDay) * SecondsPerDay + ((r % SecondsPerDay) / 3600) * 3600
          + ((r % 3600) / 60) * 60 + r % 60 == r
  {
    var d, rd := r / SecondsPerDay, r % SecondsPerDay;
    var h, rh := rd / 3600, rd % 3600;
    assert r == d * SecondsPerDay + rd;
    assert rd == h * 3600 + rh;
    assert r % 3600 == rh by {
      assert r == (d * 24 + h) * 3600 + rh;
    }
    assert rh == ((r % 3600) / 60) * 60 + r % 60 by {
      assert r == ((d * 24 + h) * 60 + rh / 60) * 60 + rh % 60;
    }
  }

  /** main.py:270-276: a non-negative remainder is split into days and
      clock parts; a negative one reaches the fallback
      `days, hours, minutes, seconds = 0, 0, 0`, which always fails. */
  function Decompose(r: int): (p: Result<Parts>)
    ensures p.Ok? <==> r >= 0
    ensures p.Ok? ==> InRange(p.value) && Seconds(p.value) == r
    ensures p.Err? ==> p.failure == UnpackMismatch
  {
    if r >= 0 then
      SplitArithmetic(r);
      Ok(Parts(r / SecondsPerDay, (r % SecondsPerDay) / 3600, (r % 3600) / 60, r % 60))
    else Err(UnpackMismatch)
  }

  /** The split is the only one within range: decomposing the seconds of an
      in-range `Parts` gives it back. */
  lemma DecomposeSeconds(p: Parts)
    requires InRange(p)
    ensures Decompose(Seconds(p)) == Ok(p)
  {
    var r := Seconds(p);
    var inHour := p.minutes * 60 + p.seconds;
    var inDay := p.hours * 3600 + inHour;
    var hoursTotal := p.days * 24 + p.hours;
    assert r == p.days * SecondsPerDay + inDay;
    DivModUnique(r, SecondsPerDay, p.days, inDay);
    DivModUnique(inDay, 3600, p.hours, inHour);
    assert r == hoursTotal * 3600 + inHour;
    DivModUnique(r, 3600, hoursTotal, inHour);
    DivModUnique(inHour, 60, p.minutes, p.seconds);
    assert r == (hoursTotal * 60 + p.minutes) * 60 + p.seconds;
    DivModUnique(r, 60, hoursTotal * 60 + p.minutes, p.seconds);
  }

  /** Euclidean division has one quotient and remainder. */
  lemma DivModUnique(a: int, d: int, q: int, r: int)
    requires 0 < d && 0 <= r < d && a == q * d + r
    ensures a / d == q && a % d == r
  {
    var k := a / d - q;
    assert k * d == r - a % d;
    assert k >= 1 ==> k * d >= d;
    assert k <= -1 ==> k * d <= -d;
  }

  /** An expired countdown without repetition always ends in the failing
      fallback; one with repetition fails only when it is more than one
      period overdue. */
  lemma ExpiredCountdown(end: int, now: int, repetition: int)
    requires end - now < 0
    ensures repetition == 0 ==> Decompose(Remaining(end, now, repetition)) == Err(UnpackMismatch)
    ensures repetition != 0 ==>
      (Decompose(Remaining(end, now, repetition)).Ok? <==> end - now >= -repetition * SecondsPerDay)
  {
  }

  /** `(remaining / 86400) / repetition` of main.py:306 as an exact
      fraction. */
  function DayFraction(remaining: int, repetition: int): (f: real)
    requires repetition != 0
    ensures f * (SecondsPerDay as real) * (repetition as real) == remaining as real
  {
    (remaining as real / SecondsPerDay as real) / repetition as real
  }

  /** The bar's fill fraction, main.py:306-308: a zero repetition divides
      by zero; an odd `countup` flips the fraction to `1 - f`. There is no
      clamping. */
  function Fullness(remaining: int, repetition: int, countup: int): (f: Result<real>)
    ensures f.Ok? <==> repetition != 0
    ensures f.Err? ==> f.failure == ZeroDivision
    ensures f.Ok? && countup % 2 != 1 ==>
      f.value * (SecondsPerDay as real) * (repetition as real) == remaining as real
    ensures f.Ok? && countup % 2 == 1 ==>
      (1.0 - f.value) * (SecondsPerDay as real) * (repetition as real) == remaining as real
  {
    if repetition == 0 then Err(ZeroDivision)
    else
      var f := DayFraction(remaining, repetition);
      Ok(if countup % 2 == 1 then 1.0 - f else f)
  }

  /** The percentage of main.py:339-341: the same fraction times 100,
      flipped to `100 - p` for an odd `countup`. */
  function Percentage(remaining: int, repetition: int, countup: int): (p: Result<real>)
    ensures p.Ok? <==> repetition != 0
    ensures p.Err? ==> p.failure == ZeroDivision
    ensures p.Ok? && countup % 2 != 1 ==>
      p.value * (SecondsPerDay as real) * (repetition as real) == 100.0 * remaining as real
    ensures p.Ok? && countup % 2 == 1 ==>
      (100.0 - p.value) * (SecondsPerDay as real) * (repetition as real) == 100.0 * remaining as real
  {
    if repetition == 0 then Err(ZeroDivision)
    else
      var p := DayFraction(remaining, repetition) * 100.0;
      Ok(if countup % 2 == 1 then 100.0 - p else p)
  }

  /** While the remainder lies within one period the fraction lies in
      [0, 1], whichever way `countup` flips it. */
  lemma FullnessInUnitInterval(remaining: int, repetition: int, countup: int)
    requires repetition > 0 && 0 <= remaining <= repetition * SecondsPerDay
    ensures Fullness(remaining, repetition, countup).Ok?
    ensures 0.0 <= Fullness(remaining, repetition, countup).value <= 1.0
  {
    var a := remaining as real / SecondsPerDay as real;
    var b := repetition as real;
    assert 0.0 <= a <= b by {
      assert a * (SecondsPerDay as real) == remaining as real;
      assert (repetition * SecondsPerDay) as real == b * (SecondsPerDay as real);
    }
    QuotientInUnitInterval(a, b);
  }

  lemma QuotientInUnitInterval(a: real, b: real)
    requires 0.0 <= a <= b && 0.0 < b
    ensures 0.0 <= a / b <= 1.0
  {
    var q := a / b;
    assert q * b == a;
    assert 0.0 <= q by {
      assert q < 0.0 ==> q * b < 0.0;
    }
    assert q <= 1.0 by {
      assert q > 1.0 ==> q * b > 1.0 * b;
    }
  }

  /** Counting up shows the complement of counting down. */
  lemma CountupComplements(remaining: int, repetition: int, up: int, down: int)
    requires repetition != 0 && up % 2 == 1 && down % 2 == 0
    ensures Fullness(remaining, repetition, up).value == 1.0 - Fullness(remaining, repetition, down).value
  {
  }

  /** The percentage is a hundred times the fullness, flip included. */
  lemma PercentageIsHundredfold(remaining: int, repetition: int, countup: int)
    requires repetition != 0
    ensures Percentage(remaining, repetition, countup).value == 100.0 * Fullness(remaining, repetition, countup).value
  {
  }

  /** An axis-aligned rectangle in pixels, origin at its top-left corner. */
  datatype Rect = Rect(x: real, y: real, w: real, h: real)

  /** The filled part of a bar at (x, y) of size w by h, main.py:310-317,
      chosen by `direction % 4`: 0 grows up from the bottom, 1 grows right
      from the left, 2 grows down from the top, 3 grows left from the
      right. */
  function BarFill(x: real, y: real, w: int, h: int, direction: int, f: real): (r: Rect)
    ensures direction % 4 == 0 ==>
      r.x == x && r.w == w as real && r.h == h as real * f && r.y + r.h == y + h as real
    ensures direction % 4 == 1 ==>
      r.x == x && r.y == y && r.w == w as real * f && r.h == h as real
    ensures direction % 4 == 2 ==>
      r.x == x && r.y == y && r.w == w as real && r.h == h as real * f
    ensures direction % 4 == 3 ==>
      r.x + r.w == x + w as real && r.y == y && r.w == w as real * f && r.h == h as real
  {
    var (xr, yr, wr, hr) := (x, y, w as real, h as real);
    match direction % 4
    case 0 => Rect(xr, yr + (1.0 - f) * hr, wr, hr * f)
    case 1 => Rect(xr, yr, wr * f, hr)
    case 2 => Rect(xr, yr, wr, hr * f)
    case _ => Rect(xr + (1.0 - f) * wr, yr, wr * f, hr)
  }

  /** For a fraction in [0, 1] the filled part stays inside the bar. */
  lemma BarFillInsideBar(x: real, y: real, w: nat, h: nat, direction: int, f: real)
    requires 0.0 <= f <= 1.0
    ensures var r := BarFill(x, y, w, h, direction, f);
      x <= r.x && r.x + r.w <= x + w as real && 0.0 <= r.w
      && y <= r.y && r.y + r.h <= y + h as real && 0.0 <= r.h
  {
    var r := BarFill(x, y, w, h, direction, f);
    SpanInside(x, w as real, f, r.x, r.w);
    SpanInside(y, h as real, f, r.y, r.h);
  }

  /** A span of the full side, or of its fraction `f`, laid from either end
      of the side stays within the side. */
  lemma SpanInside(origin: real, side: real, f: real, start: real, len: real)
    requires 0.0 <= side && 0.0 <= f <= 1.0
    requires len == side || len == side * f
    requires start == origin || start + len == origin + side
    ensures origin <= start && start + len <= origin + side && 0.0 <= len
  {
    ScaledSide(side, f);
  }

  lemma ScaledSide(side: real, f: real)
    requires 0.0 <= side && 0.0 <= f <= 1.0
    ensures 0.0 <= side * f <= side
    ensures (1.0 - f) * side == side - side * f
  {
    assert side * f <= side * 1.0;
  }
}
