/** `getTimeDiff`: the time since a user was first seen, as the whole days and
    hours that the classification prompt quotes ("D天H小时" or "H小时").
    The arithmetic is written the way JavaScript evaluates it — division on
    numbers, `%` that keeps the sign of the dividend, `Math.floor` — on exact
    reals; `TimeDiffClosedForm` then states the integer result for a
    non-negative difference. */
module TimeDiff {

  const MsPerHour: int := 3600000   // 1000 * 60 * 60
  const MsPerDay: int := 86400000   // 1000 * 60 * 60 * 24

  /** The two shapes of the formatted text: with a day part when `days > 0`. */
  datatype Elapsed = DaysHours(days: int, hours: int) | HoursOnly(hours: int)

  /** Rounding toward zero. */
  function Trunc(x: real): int
  {
    if x >= 0.0 then x.Floor else -((-x).Floor)
  }

  /** JavaScript's `x % m` on numbers. */
  function JsRem(x: real, m: real): real
    requires m != 0.0
  {
    x - m * (Trunc(x / m) as real)
  }

  /** `getTimeDiff(joinTime)` evaluated at clock reading `now`. The day part
      appears exactly when a full day has passed, whatever the two readings
      (a clock that went backwards gives the hours-only form). */
  function GetTimeDiff(now: int, joinTime: int): (r: Elapsed)
    ensures r.DaysHours? <==> now - joinTime >= MsPerDay
    ensures r.DaysHours? ==> r.days >= 1
  {
    DayPartIffFullDay(now - joinTime);
    var diff := (now - joinTime) as real;
    var days := (diff / (MsPerDay as real)).Floor;
    var hours := JsRem(diff / (MsPerHour as real), 24.0).Floor;
    if days > 0 then DaysHours(days, hours) else HoursOnly(hours)
  }

  /** The number of whole hours the text denotes. */
  function TotalHours(e: Elapsed): int
  {
    match e
    case DaysHours(d, h) => 24 * d + h
    case HoursOnly(h) => h
  }

  /** Floor of an exact quotient is integer division. */
  lemma FloorOfQuotient(a: int, b: int)
    requires a >= 0 && b > 0
    ensures (a as real / b as real).Floor == a / b
  {
    var q, r := a / b, a % b;
    assert a == b * q + r && 0 <= r < b;
    assert (q as real) * (b as real) <= a as real < ((q + 1) as real) * (b as real);
    assert q as real <= a as real / b as real < (q + 1) as real;
  }

  /** The floored day count is positive exactly from one full day on; a
      negative difference floors below zero. */
  lemma DayPartIffFullDay(diff: int)
    ensures (diff as real / MsPerDay as real).Floor > 0 <==> diff >= MsPerDay
  {
    if diff >= 0 {
      FloorOfQuotient(diff, MsPerDay);
    } else {
      assert diff as real / MsPerDay as real < 0.0;
    }
  }

  /** Whole days and hours split the same way as nested integer division. */
  lemma DaysAreHoursDiv24(diff: int)
    requires diff >= 0
    ensures diff / MsPerDay == (diff / MsPerHour) / 24
  {
    var h := diff / MsPerHour;
    var d := h / 24;
    assert diff == MsPerDay * d + (MsPerHour * (h % 24) + diff % MsPerHour);
  }

  /** For a non-negative difference: the day part appears exactly when a full
      day has passed, the days are `diff div 86400000`, the hours are the hour
      count modulo 24 (so within 0..23), and together they denote every whole
      hour that has passed. */
  lemma TimeDiffClosedForm(now: int, joinTime: int)
    requires now >= joinTime
    ensures GetTimeDiff(now, joinTime).DaysHours? <==> now - joinTime >= MsPerDay
    ensures GetTimeDiff(now, joinTime).DaysHours? ==>
              GetTimeDiff(now, joinTime).days == (now - joinTime) / MsPerDay
    ensures GetTimeDiff(now, joinTime).hours == ((now - joinTime) / MsPerHour) % 24
    ensures 0 <= GetTimeDiff(now, joinTime).hours < 24
    ensures TotalHours(GetTimeDiff(now, joinTime)) == (now - joinTime) / MsPerHour
  {
    var diff := now - joinTime;
    var x := diff as real / MsPerHour as real;
    FloorOfQuotient(diff, MsPerDay);
    FloorOfQuotient(diff, MsPerHour);
    DaysAreHoursDiv24(diff);
    var d := diff / MsPerDay;
    var h := diff / MsPerHour;
    assert x / 24.0 == diff as real / MsPerDay as real;
    assert Trunc(x / 24.0) == d;
    assert JsRem(x, 24.0) == x - 24.0 * (d as real);
    assert (x - 24.0 * (d as real)).Floor == x.Floor - 24 * d;
  }
}
