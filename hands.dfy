/** The angle of an analog hand (main.py:380-384): seconds since midnight in
    the hand's timezone, reduced modulo the hand's period and scaled to
    degrees, with 0 seconds pointing up (-90 degrees). */
module Hands {
  import opened Errors

  /** Python's `a // b`: the quotient rounded towards minus infinity. */
  function FloorDiv(a: int, b: int): int
    requires b != 0
  {
    if b < 0 && a % b != 0 then a / b - 1 else a / b
  }

  /** Python's `a % b`: the remainder takes the sign of the divisor. */
  function PyMod(a: int, b: int): (r: int)
    requires b != 0
    ensures b > 0 ==> 0 <= r < b
    ensures b < 0 ==> b < r <= 0
    ensures a == FloorDiv(a, b) * b + r
  {
    var e := a % b;
    if b < 0 && e != 0 then
      assert (a / b - 1) * b == (a / b) * b - b;
      e + b
    else e
  }

  /** `(hour + timezone) * 3600 + minute * 60 + second` of main.py:381; the
      hour sum is not reduced modulo 24. */
  function CycleSeconds(hour: int, timezone: int, minute: int, second: int): int {
    (hour + timezone) * 3600 + minute * 60 + second
  }

  /** `(seconds % duration) * (360 / duration) - 90` of main.py:383; a zero
      duration divides by zero. */
  function HandAngle(seconds: int, duration: int): (a: Result<real>)
    ensures a.Ok? <==> duration != 0
    ensures a.Err? ==> a.failure == ZeroDivision
    ensures a.Ok? ==> -90.0 <= a.value < 270.0
  {
    if duration == 0 then Err(ZeroDivision)
    else
      var m := PyMod(seconds, duration);
      FractionOfTurn(m, duration);
      Ok(m as real * (360.0 / duration as real) - 90.0)
  }

  /** The reduced seconds over the period lie in [0, 1) for either sign of
      the period. */
  lemma FractionOfTurn(m: int, d: int)
    requires d != 0
    requires d > 0 ==> 0 <= m < d
    requires d < 0 ==> d < m <= 0
    ensures 0.0 <= m as real * (360.0 / d as real) < 360.0
  {
    var t := m as real * (360.0 / d as real);
    assert t == 360.0 * (m as real / d as real);
    var q := m as real / d as real;
    assert q * d as real == m as real;
    if d > 0 {
      assert 0.0 <= q by {
        assert q < 0.0 ==> q * d as real < 0.0;
      }
      assert q < 1.0 by {
        assert q >= 1.0 ==> q * d as real >= d as real;
      }
    } else {
      assert 0.0 <= q by {
        assert q < 0.0 ==> q * d as real > 0.0;
      }
      assert q < 1.0 by {
        assert q >= 1.0 ==> q * d as real <= d as real;
      }
    }
  }

  /** A whole period later the hand is back where it was. */
  lemma HandAnglePeriodic(seconds: int, duration: int)
    requires duration != 0
    ensures HandAngle(seconds + duration, duration) == HandAngle(seconds, duration)
  {
    var q, r := FloorDiv(seconds, duration), PyMod(seconds, duration);
    assert seconds + duration == (q + 1) * duration + r;
    PyModUnique(seconds + duration, duration, q + 1, r);
    assert HandAngle(seconds + duration, duration).value == r as real * (360.0 / duration as real) - 90.0;
    assert HandAngle(seconds, duration).value == r as real * (360.0 / duration as real) - 90.0;
  }

  /** Python's remainder is the only value in the divisor's range that
      differs from `a` by a multiple of `b`. */
  lemma PyModUnique(a: int, b: int, q: int, r: int)
    requires b != 0
    requires b > 0 ==> 0 <= r < b
    requires b < 0 ==> b < r <= 0
    requires a == q * b + r
    ensures PyMod(a, b) == r
  {
    var p, qp := PyMod(a, b), FloorDiv(a, b);
    var k := qp - q;
    assert k * b == r - p;
    MultipleGap(k, b);
  }

  /** A non-zero multiple of `b` is at least `|b|` away from zero. */
  lemma MultipleGap(k: int, b: int)
    ensures k >= 1 && b > 0 ==> k * b >= b
    ensures k >= 1 && b < 0 ==> k * b <= b
    ensures k <= -1 && b > 0 ==> k * b <= -b
    ensures k <= -1 && b < 0 ==> k * b >= -b
  {
  }

  /** Within a period the hand moves forward by `360 / duration` degrees
      every second; at the start of a period it jumps back to -90. */
  lemma HandAdvancesOneStep(seconds: int, duration: int)
    requires duration > 0
    ensures PyMod(seconds, duration) == 0 ==> HandAngle(seconds, duration).value == -90.0
    ensures PyMod(seconds, duration) != 0 ==>
      HandAngle(seconds, duration).value
        == HandAngle(seconds - 1, duration).value + 360.0 / duration as real
  {
    var q, m := FloorDiv(seconds, duration), PyMod(seconds, duration);
    if m != 0 {
      PyModUnique(seconds - 1, duration, q, m - 1);
    }
  }

  /** The minute hand (period 3600) shows the same angle whatever the hour
      and timezone. */
  lemma MinuteHandIgnoresHour(hour: int, timezone: int, hour': int, timezone': int, minute: int, second: int)
    ensures HandAngle(CycleSeconds(hour, timezone, minute, second), 3600)
         == HandAngle(CycleSeconds(hour', timezone', minute, second), 3600)
  {
    var q, r := FloorDiv(minute * 60 + second, 3600), PyMod(minute * 60 + second, 3600);
    PyModUnique(CycleSeconds(hour, timezone, minute, second), 3600, hour + timezone + q, r);
    PyModUnique(CycleSeconds(hour', timezone', minute, second), 3600, hour' + timezone' + q, r);
  }

  /** The hour hand (period 43200) does not change when the timezone moves
      by twelve hours. */
  lemma HourHandHalfDay(hour: int, timezone: int, minute: int, second: int)
    ensures HandAngle(CycleSeconds(hour, timezone + 12, minute, second), 43200)
         == HandAngle(CycleSeconds(hour, timezone, minute, second), 43200)
  {
    assert CycleSeconds(hour, timezone + 12, minute, second)
        == CycleSeconds(hour, timezone, minute, second) + 43200;
    HandAnglePeriodic(CycleSeconds(hour, timezone, minute, second), 43200);
  }

  /** Fifteen seconds after the top of the minute, the second hand of the
      configuration points right (0 degrees); at 45 it points left. */
  lemma SecondHandQuarters(hour: int, timezone: int, minute: int)
    ensures HandAngle(CycleSeconds(hour, timezone, minute, 15), 60) == Ok(0.0)
    ensures HandAngle(CycleSeconds(hour, timezone, minute, 45), 60) == Ok(180.0)
  {
    var q := (hour + timezone) * 60 + minute;
    PyModUnique(CycleSeconds(hour, timezone, minute, 15), 60, q, 15);
    PyModUnique(CycleSeconds(hour, timezone, minute, 45), 60, q, 45);
  }
}
