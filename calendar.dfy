/**
 * Calendar arithmetic shared by both flows. A calendar date is a day number
 * (days since 1970-01-01 in local time, which was a Thursday); a timestamp is
 * a number of seconds since local midnight of 1970-01-01.
 */
module Calendar {

  const Sunday := 0
  const Monday := 1
  const Tuesday := 2
  const Wednesday := 3
  const Thursday := 4
  const Friday := 5
  const Saturday := 6

  const SecondsPerDay := 86400

  /** Minutes, seconds and milliseconds past the hour fit below this. */
  const MsPerHour := 3600000

  /** `moment.day()`: the weekday of a day number, Sunday = 0 .. Saturday = 6. */
  function Weekday(d: int): (w: int)
    ensures 0 <= w < 7
  {
    (d + 4) % 7
  }

  predicate IsWeekend(d: int)
  {
    Weekday(d) == Sunday || Weekday(d) == Saturday
  }

  /** The calendar day a timestamp falls on. */
  function DayOf(t: int): int
  {
    t / SecondsPerDay
  }

  /** The Sunday that starts the week containing day `d`. */
  function WeekStart(d: int): (s: int)
    ensures Weekday(s) == Sunday
    ensures s <= d < s + 7
  {
    d - Weekday(d)
  }

  /** `moment.format('dddd')`: the English name of a day's weekday. */
  function WeekdayName(d: int): (name: string)
    ensures |name| >= 6
  {
    match Weekday(d)
    case 0 => "Sunday"
    case 1 => "Monday"
    case 2 => "Tuesday"
    case 3 => "Wednesday"
    case 4 => "Thursday"
    case 5 => "Friday"
    case _ => "Saturday"
  }

  /** Different weekdays have different names, so the name identifies the weekday. */
  lemma WeekdayNameIdentifiesWeekday(a: int, b: int)
    ensures WeekdayName(a) == WeekdayName(b) <==> Weekday(a) == Weekday(b)
  {
  }

  /**
   * One reading of the local clock: a day number, the hour of the day and
   * the milliseconds past that hour (the minutes, seconds and milliseconds).
   */
  datatype Instant = Instant(day: int, hour: int, ms: int)

  predicate ValidInstant(t: Instant)
  {
    0 <= t.hour < 24 && 0 <= t.ms < MsPerHour
  }

  /** Milliseconds since the epoch's local midnight. */
  function Stamp(t: Instant): int
  {
    (t.day * 24 + t.hour) * MsPerHour + t.ms
  }

  /**
   * `a.isBefore(b)`: `a` is the earlier instant. For readings of the clock
   * this is the order of day, then hour, then milliseconds.
   */
  predicate IsBefore(a: Instant, b: Instant)
  {
    Stamp(a) < Stamp(b)
  }

  lemma {:induction false} IsBeforeLexicographic(a: Instant, b: Instant)
    requires ValidInstant(a) && ValidInstant(b)
    ensures IsBefore(a, b) <==>
              a.day < b.day || (a.day == b.day && (a.hour < b.hour || (a.hour == b.hour && a.ms < b.ms)))
  {
    var ha, hb := a.day * 24 + a.hour, b.day * 24 + b.hour;
    assert Stamp(a) == ha * MsPerHour + a.ms && Stamp(b) == hb * MsPerHour + b.ms;
    if ha < hb {
      assert (ha + 1) * MsPerHour <= hb * MsPerHour;
    } else if hb < ha {
      assert (hb + 1) * MsPerHour <= ha * MsPerHour;
    }
  }

  /**
   * A local date-time the way the flows use a moment.js object, which the
   * source mutates in place: a day number, an hour of the day and the
   * milliseconds past that hour.
   */
  class Moment {
    var day: int
    var hour: int
    var ms: int

    ghost predicate Valid()
      reads this
    {
      ValidInstant(Instant(day, hour, ms))
    }

    /** The instant this moment stands for. */
    function At(): Instant
      reads this
    {
      Instant(day, hour, ms)
    }

    /** `moment()`: a moment at the reading `t` of the clock. */
    constructor (t: Instant)
      requires ValidInstant(t)
      ensures Valid()
      ensures At() == t
    {
      day := t.day;
      hour := t.hour;
      ms := t.ms;
    }

    /**
     * `moment.day(n)` as a setter: moves by `n - day()` days, so the moment
     * lands on weekday `n mod 7`, `n / 7` weeks away from its own week (a
     * negative `n` reaches into the previous week). The time of day is kept.
     */
    method SetWeekday(n: int)
      requires Valid()
      modifies this
      ensures Valid()
      ensures day == old(day) + (n - Weekday(old(day)))
      ensures Weekday(day) == n % 7
      ensures WeekStart(day) == WeekStart(old(day)) + 7 * (n / 7)
      ensures hour == old(hour) && ms == old(ms)
    {
      day := day + (n - Weekday(day));
    }

    /** `moment.hour(h)` as a setter: the day and the minutes, seconds and milliseconds are kept. */
    method SetHour(h: int)
      requires Valid() && 0 <= h < 24
      modifies this
      ensures Valid()
      ensures day == old(day) && hour == h && ms == old(ms)
    {
      hour := h;
    }
  }
}
