/** Calendar arithmetic on integer millisecond timestamps in a fixed zone (UTC).
    A timestamp `t` falls on day number `Day(t)` counted from 1970-01-01, which
    was a Thursday; JavaScript's `getDay` numbers Sunday 0 to Saturday 6. */
module Dates {

  const MsPerDay: int := 86400000

  function Day(t: int): int { t / MsPerDay }

  function TimeOfDay(t: int): int { t % MsPerDay }

  /** `getDay()`: 0 for Sunday through 6 for Saturday. */
  function Weekday(t: int): (w: int)
    ensures 0 <= w < 7
  {
    (Day(t) + 4) % 7
  }

  /** `a.toDateString() === b.toDateString()`: the same calendar day. */
  predicate SameDay(a: int, b: int) { Day(a) == Day(b) }

  /** Midnight (start) of day number `d`. */
  function Midnight(d: int): int { d * MsPerDay }

  /** A timestamp is the day it falls on plus its time of day. */
  lemma Split(t: int)
    ensures t == Midnight(Day(t)) + TimeOfDay(t)
    ensures 0 <= TimeOfDay(t) < MsPerDay
  {
  }

  /** The quotient is determined by a decomposition with a remainder in range. */
  lemma DivUnique(x: int, q: int, r: int)
    requires x == q * MsPerDay + r && 0 <= r < MsPerDay
    ensures Day(x) == q && TimeOfDay(x) == r
  {
    Split(x);
  }

  /** Moving by `k` whole days moves the day number by `k` and keeps the time of day. */
  lemma DayShift(t: int, k: int)
    ensures Day(t + k * MsPerDay) == Day(t) + k
    ensures TimeOfDay(t + k * MsPerDay) == TimeOfDay(t)
  {
    Split(t);
    DivUnique(t + k * MsPerDay, Day(t) + k, TimeOfDay(t));
  }

  lemma WeekdayShift(t: int, k: int)
    ensures Weekday(t + k * MsPerDay) == (Weekday(t) + k) % 7
  {
    DayShift(t, k);
  }

  /** A proleptic Gregorian date; `month` is 1..12 (JavaScript's `getMonth() + 1`). */
  datatype Civil = Civil(year: int, month: int, day: int)

  /** The Gregorian date of day number `d` (days since 1970-01-01), by the
      era/year-of-era decomposition of the 400-year cycle. */
  function CivilFromDays(d: int): Civil {
    var z := d + 719468;
    var era := z / 146097;
    var doe := z - era * 146097;
    var yoe := (doe - doe / 1460 + doe / 36524 - doe / 146096) / 365;
    var doy := doe - (365 * yoe + yoe / 4 - yoe / 100);
    var mp := (5 * doy + 2) / 153;
    var dom := doy - (153 * mp + 2) / 5 + 1;
    var m := if mp < 10 then mp + 3 else mp - 9;
    Civil(yoe + era * 400 + (if m <= 2 then 1 else 0), m, dom)
  }

  /** The Gregorian dates of the day numbers around the default week, each
      evaluated step by step through the era decomposition. */
  lemma July27of2025()
    ensures CivilFromDays(20296) == Civil(2025, 7, 27)
  {
    assert 739764 / 146097 == 5;
    assert 9279 / 1460 == 6 && 9279 / 36524 == 0 && 9279 / 146096 == 0;
    assert 9273 / 365 == 25;
    assert 9279 - (365 * 25 + 25 / 4 - 25 / 100) == 148;
    assert (5 * 148 + 2) / 153 == 4;
    assert 148 - (153 * 4 + 2) / 5 + 1 == 27;
  }

  lemma August2of2025()
    ensures CivilFromDays(20302) == Civil(2025, 8, 2)
  {
    assert 739770 / 146097 == 5;
    assert 9285 / 1460 == 6 && 9285 / 36524 == 0 && 9285 / 146096 == 0;
    assert 9279 / 365 == 25;
    assert 9285 - (365 * 25 + 25 / 4 - 25 / 100) == 154;
    assert (5 * 154 + 2) / 153 == 5;
    assert 154 - (153 * 5 + 2) / 5 + 1 == 2;
  }

  lemma August3of2025()
    ensures CivilFromDays(20303) == Civil(2025, 8, 3)
  {
    assert 739771 / 146097 == 5;
    assert 9286 / 1460 == 6 && 9286 / 36524 == 0 && 9286 / 146096 == 0;
    assert 9280 / 365 == 25;
    assert 9286 - (365 * 25 + 25 / 4 - 25 / 100) == 155;
    assert (5 * 155 + 2) / 153 == 5;
    assert 155 - (153 * 5 + 2) / 5 + 1 == 3;
  }

  lemma August9of2025()
    ensures CivilFromDays(20309) == Civil(2025, 8, 9)
  {
    assert 739777 / 146097 == 5;
    assert 9292 / 1460 == 6 && 9292 / 36524 == 0 && 9292 / 146096 == 0;
    assert 9286 / 365 == 25;
    assert 9292 - (365 * 25 + 25 / 4 - 25 / 100) == 161;
    assert (5 * 161 + 2) / 153 == 5;
    assert 161 - (153 * 5 + 2) / 5 + 1 == 9;
  }

  /** `getMonth() + 1` and `getFullYear()` of a timestamp. */
  function Month(t: int): int { CivilFromDays(Day(t)).month }
  function Year(t: int): int { CivilFromDays(Day(t)).year }
}
