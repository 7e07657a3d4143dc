/** Seconds since the Unix epoch as a civil date and time in UTC
    (apps/collector/src-tauri/src/submission.rs, chrono_free_utc), against the calendar that steps one day at a time. */
module Calendar {

  newtype u64 = x: int | 0 <= x < 0x1_0000_0000_0000_0000
  newtype i64 = x: int | -0x8000_0000_0000_0000 <= x < 0x8000_0000_0000_0000

  datatype Date = Date(year: int, month: int, day: int)
  datatype DateTime = DateTime(date: Date, hour: int, minute: int, second: int)

  // The Gregorian calendar.

  predicate Leap(year: int) {
    year % 4 == 0 && (year % 100 != 0 || year % 400 == 0)
  }

  function MonthLength(year: int, month: int): int {
    if month == 2 then (if Leap(year) then 29 else 28)
    else if month == 4 || month == 6 || month == 9 || month == 11 then 30 else 31
  }

  predicate ValidDate(d: Date) {
    1 <= d.month <= 12 && 1 <= d.day <= MonthLength(d.year, d.month)
  }

  function NextDay(d: Date): Date {
    if d.day < MonthLength(d.year, d.month) then d.(day := d.day + 1)
    else if d.month < 12 then Date(d.year, d.month + 1, 1)
    else Date(d.year + 1, 1, 1)
  }

  const EPOCH := Date(1970, 1, 1)

  /** The date n days after the epoch. */
  function DateAfter(n: nat): Date {
    if n == 0 then EPOCH else NextDay(DateAfter(n - 1))
  }

  // Counting days back to the epoch, in years that begin on the first of March.

  /** The March-based year and month of a date. */
  function MarchYear(d: Date): int {
    if d.month <= 2 then d.year - 1 else d.year
  }

  function MarchMonth(d: Date): int {
    if d.month <= 2 then d.month + 9 else d.month - 3
  }

  function YearStart(y: int): int {
    365 * y + y / 4 - y / 100 + y / 400
  }

  function MonthStart(m: int): int {
    (153 * m + 2) / 5
  }

  function DaysSinceEpoch(d: Date): int {
    YearStart(MarchYear(d)) + MonthStart(MarchMonth(d)) + d.day - 1 - 719_468
  }

  lemma NextDayCounts(d: Date)
    requires ValidDate(d)
    ensures ValidDate(NextDay(d)) && DaysSinceEpoch(NextDay(d)) == DaysSinceEpoch(d) + 1
  {
    if d.day == MonthLength(d.year, d.month) {
      if d.month == 2 {
        LeapDay(d.year);
      } else {
        MonthTurns(MarchMonth(d), d);
      }
    }
  }

  lemma MonthTurns(m: int, d: Date)
    requires ValidDate(d) && m == MarchMonth(d) && d.month != 2
    ensures m < 11 && MonthStart(m + 1) == MonthStart(m) + MonthLength(d.year, d.month)
  {
  }

  /** The March-based year before `y` has a leap day just when y is a leap year. */
  lemma LeapDay(y: int)
    ensures YearStart(y) == YearStart(y - 1) + 365 + if Leap(y) then 1 else 0
  {
    Fours(y);
    Hundreds(y);
    FourHundreds(y);
    Multiples(y);
  }

  lemma Fours(y: int)
    ensures y / 4 == (y - 1) / 4 + if y % 4 == 0 then 1 else 0
  {
  }

  lemma Hundreds(y: int)
    ensures y / 100 == (y - 1) / 100 + if y % 100 == 0 then 1 else 0
  {
  }

  lemma FourHundreds(y: int)
    ensures y / 400 == (y - 1) / 400 + if y % 400 == 0 then 1 else 0
  {
  }

  lemma Multiples(y: int)
    ensures y % 400 == 0 ==> y % 100 == 0
    ensures y % 100 == 0 ==> y % 4 == 0
  {
  }

  lemma {:induction false} DateAfterCounts(n: nat)
    ensures ValidDate(DateAfter(n)) && DaysSinceEpoch(DateAfter(n)) == n
  {
    if n != 0 {
      DateAfterCounts(n - 1);
      NextDayCounts(DateAfter(n - 1));
    }
  }

  predicate DateBefore(a: Date, b: Date) {
    a.year < b.year || (a.year == b.year && (a.month < b.month || (a.month == b.month && a.day < b.day)))
  }

  lemma {:induction false} YearsApart(a: int, b: int)
    requires a < b
    ensures YearStart(a) + 365 <= YearStart(b)
    decreases b - a
  {
    LeapDay(b);
    if a < b - 1 {
      YearsApart(a, b - 1);
    }
  }

  /** Within its March-based year a date lies below the next year's start. */
  lemma WithinYear(d: Date)
    requires ValidDate(d)
    ensures 0 <= MonthStart(MarchMonth(d)) + d.day - 1
    ensures YearStart(MarchYear(d)) + MonthStart(MarchMonth(d)) + d.day - 1 < YearStart(MarchYear(d) + 1)
  {
    LeapDay(MarchYear(d) + 1);
  }

  lemma LaterDateCountsMore(a: Date, b: Date)
    requires ValidDate(a) && ValidDate(b) && DateBefore(a, b)
    ensures DaysSinceEpoch(a) < DaysSinceEpoch(b)
  {
    if MarchYear(a) < MarchYear(b) {
      WithinYear(a);
      WithinYear(b);
      if MarchYear(a) + 1 < MarchYear(b) {
        YearsApart(MarchYear(a) + 1, MarchYear(b));
      }
    }
  }

  lemma SameCountSameDate(a: Date, b: Date)
    requires ValidDate(a) && ValidDate(b) && DaysSinceEpoch(a) == DaysSinceEpoch(b)
    ensures a == b
  {
    if DateBefore(a, b) {
      LaterDateCountsMore(a, b);
    } else if DateBefore(b, a) {
      LaterDateCountsMore(b, a);
    }
  }

  // The conversion. Eras of 400 years hold 146097 days; within one, four centuries of 36524 days and a last
  // leap day, each of 25 groups of 1461 days, each of four years.

  /** Where day `doe` of an era falls: century c, four-year group q, year s of the group, day u of the year. */
  lemma EraParts(doe: int) returns (c: int, q: int, s: int, u: int)
    requires 0 <= doe < 146_097
    ensures 0 <= c <= 3 && 0 <= q <= 24 && 0 <= s <= 3 && 0 <= u <= 365
    ensures doe == 36_524 * c + 1_461 * q + 365 * s + u
    ensures u == 365 ==> s == 3 && (q != 24 || c == 3)
  {
    c := if doe / 36_524 == 4 then 3 else doe / 36_524;
    var r := doe - 36_524 * c;
    q := r / 1_461;
    var t := r % 1_461;
    s := if t / 365 == 4 then 3 else t / 365;
    u := t - 365 * s;
  }

  /** The three corrections leave 365 days for every year, and a remainder below 365. */
  lemma Corrections(doe: int, c: int, q: int, s: int, u: int)
    requires 0 <= c <= 3 && 0 <= q <= 24 && 0 <= s <= 3 && 0 <= u <= 365 && (u == 365 ==> s == 3)
    requires doe == 36_524 * c + 1_461 * q + 365 * s + u && 0 <= doe < 146_097 && (u == 365 && q == 24 ==> c == 3)
    ensures (doe - doe / 1_460 + doe / 36_524 - doe / 146_096) / 365 == 100 * c + 4 * q + s
  {
    var groups := 25 * c + q;
    var extra := if 24 * c + q + 365 * s + u >= 1_460 then 1 else 0;
    assert doe - 1_460 * groups == 24 * c + q + 365 * s + u;
    assert doe / 1_460 == groups + extra;
    assert doe / 36_524 - doe / 146_096 == c;
  }

  /** The year of the era comes out exactly. */
  lemma YearOfEra(doe: int)
    requires 0 <= doe < 146_097
    ensures var yoe := (doe - doe / 1_460 + doe / 36_524 - doe / 146_096) / 365;
            && 0 <= yoe <= 399
            && 0 <= doe - (365 * yoe + yoe / 4 - yoe / 100) <= 365
            && (doe - (365 * yoe + yoe / 4 - yoe / 100) == 365 ==> Leap(yoe + 1))
  {
    var c, q, s, u := EraParts(doe);
    Corrections(doe, c, q, s, u);
    YearDigits(c, q, s);
  }

  lemma YearDigits(c: int, q: int, s: int)
    requires 0 <= c <= 3 && 0 <= q <= 24 && 0 <= s <= 3
    ensures var y := 100 * c + 4 * q + s;
            y / 4 == 25 * c + q && y / 100 == c && (s == 3 && (q != 24 || c == 3) ==> Leap(y + 1))
  {
  }

  /** Months of 31, 30, 31, 30, 31 days from March on, by the same linear formula both ways. */
  lemma MonthOfYear(doy: int)
    requires 0 <= doy <= 365
    ensures var mp := (5 * doy + 2) / 153;
            && 0 <= mp <= 11
            && MonthStart(mp) <= doy < (if mp == 11 then 366 else MonthStart(mp + 1))
            && (mp == 11 ==> MonthStart(mp) == 337)
  {
  }

  /** Day `doy` of year `yoe` of an era is a valid date that counts from the era's first day. */
  lemma DayOfEra(yoe: int, era: int, doy: int, mp: int, d: Date)
    requires 0 <= yoe <= 399 && 0 <= doy <= 365 && (doy == 365 ==> Leap(yoe + 1)) && mp == (5 * doy + 2) / 153
    requires d.day == doy - (153 * mp + 2) / 5 + 1 && d.month == mp + (if mp < 10 then 3 else -9)
    requires d.year == yoe + era * 400 + (if d.month <= 2 then 1 else 0)
    ensures ValidDate(d) && DaysSinceEpoch(d) == era * 146_097 + 365 * yoe + yoe / 4 - yoe / 100 + doy - 719_468
  {
    MonthOfYear(doy);
    EraShift(yoe, era);
    assert MarchYear(d) == yoe + era * 400 && MarchMonth(d) == mp;
  }

  /** Everything the conversion computes, on unbounded integers: the date is the calendar's. */
  lemma CivilCorrect(n: int, era: int, doe: int, yoe: int, doy: int, mp: int, d: Date)
    requires 0 <= n && era == (n + 719_468) / 146_097 && doe == n + 719_468 - era * 146_097
    requires yoe == (doe - doe / 1_460 + doe / 36_524 - doe / 146_096) / 365
    requires doy == doe - (365 * yoe + yoe / 4 - yoe / 100) && mp == (5 * doy + 2) / 153
    requires d.day == doy - (153 * mp + 2) / 5 + 1 && d.month == mp + (if mp < 10 then 3 else -9)
    requires d.year == yoe + era * 400 + (if d.month <= 2 then 1 else 0)
    ensures d == DateAfter(n)
  {
    YearOfEra(doe);
    DayOfEra(yoe, era, doy, mp, d);
    DateAfterCounts(n);
    SameCountSameDate(d, DateAfter(n));
  }

  /** Whole eras shift the calendar without changing it. */
  lemma EraShift(yoe: int, era: int)
    requires 0 <= yoe <= 399
    ensures YearStart(yoe + era * 400) == 365 * yoe + yoe / 4 - yoe / 100 + era * 146_097
    ensures Leap(yoe + era * 400 + 1) <==> Leap(yoe + 1)
  {
    ByFour(yoe, era);
    ByHundred(yoe, era);
    ByFourHundred(yoe, era);
    ByFour(yoe + 1, era);
    ByHundred(yoe + 1, era);
    ByFourHundred(yoe + 1, era);
  }

  lemma ByFour(y: int, era: int)
    ensures (y + era * 400) / 4 == y / 4 + era * 100 && (y + era * 400) % 4 == y % 4
  {
  }

  lemma ByHundred(y: int, era: int)
    ensures (y + era * 400) / 100 == y / 100 + era * 4 && (y + era * 400) % 100 == y % 100
  {
  }

  lemma ByFourHundred(y: int, era: int)
    ensures (y + era * 400) / 400 == y / 400 + era && (y + era * 400) % 400 == y % 400
  {
  }

  /** Division in the source truncates toward zero; the adjustment for negative days makes it round down. */
  method EraOf(z: i64) returns (era: i64)
    requires -0x8000_0000_0000_0000 + 146_097 <= z as int
    ensures era as int == z as int / 146_097
  {
    var shifted := if z >= 0 then z else z - 146_096;
    era := if shifted >= 0 then shifted / 146_097 else -((-shifted) / 146_097);
  }

  /** The conversion itself, in the widths of the source: no operation leaves i64 or u64. */
  method ChronoFreeUtc(seconds: u64) returns (r: DateTime)
    ensures r == FieldsAt(seconds as int)
  {
    var days := (seconds / 86_400) as i64;
    var daySeconds := seconds % 86_400;
    var z := days + 719_468;
    var era := EraOf(z);
    var doe := z - era * 146_097;
    YearOfEra(doe as int);
    var yoe := (doe - doe / 1_460 + doe / 36_524 - doe / 146_096) / 365;
    var year := yoe + era * 400;
    var doy := doe - (365 * yoe + yoe / 4 - yoe / 100);
    MonthOfYear(doy as int);
    var mp := (5 * doy + 2) / 153;
    var day := doy - (153 * mp + 2) / 5 + 1;
    var month := mp + (if mp < 10 then 3 else -9);
    year := year + (if month <= 2 then 1 else 0);
    var date := Date(year as int, month as int, day as int);
    CivilCorrect(days as int, era as int, doe as int, yoe as int, doy as int, mp as int, date);
    r := DateTime(date, (daySeconds / 3_600) as int, ((daySeconds % 3_600) / 60) as int, (daySeconds % 60) as int);
  }

  /** The calendar's own answer. */
  function FieldsAt(seconds: nat): DateTime {
    var daySeconds := seconds % 86_400;
    DateTime(DateAfter(seconds / 86_400), daySeconds / 3_600, daySeconds % 3_600 / 60, daySeconds % 60)
  }

  predicate ValidDateTime(t: DateTime) {
    ValidDate(t.date) && 0 <= t.hour < 24 && 0 <= t.minute < 60 && 0 <= t.second < 60
  }

  function SecondsSinceEpoch(t: DateTime): int {
    DaysSinceEpoch(t.date) * 86_400 + t.hour * 3_600 + t.minute * 60 + t.second
  }

  /** The fields are valid and count back to the instant. */
  lemma FieldsInvert(seconds: nat)
    ensures ValidDateTime(FieldsAt(seconds)) && SecondsSinceEpoch(FieldsAt(seconds)) == seconds
  {
    DateAfterCounts(seconds / 86_400);
  }

  predicate Earlier(a: DateTime, b: DateTime) {
    || DateBefore(a.date, b.date)
    || (a.date == b.date && (a.hour < b.hour || (a.hour == b.hour && (a.minute < b.minute ||
         (a.minute == b.minute && a.second < b.second)))))
  }

  lemma EarlierCountsLess(a: DateTime, b: DateTime)
    requires ValidDateTime(a) && ValidDateTime(b) && Earlier(a, b)
    ensures SecondsSinceEpoch(a) < SecondsSinceEpoch(b)
  {
    if DateBefore(a.date, b.date) {
      LaterDateCountsMore(a.date, b.date);
    }
  }

  /** Later instants have later fields, and only they do. */
  lemma FieldsOrdered(x: nat, y: nat)
    ensures x < y <==> Earlier(FieldsAt(x), FieldsAt(y))
  {
    FieldsInvert(x);
    FieldsInvert(y);
    if Earlier(FieldsAt(x), FieldsAt(y)) {
      EarlierCountsLess(FieldsAt(x), FieldsAt(y));
    } else if Earlier(FieldsAt(y), FieldsAt(x)) {
      EarlierCountsLess(FieldsAt(y), FieldsAt(x));
    }
  }

  const YEAR_10000 := Date(10_000, 1, 1)

  lemma Landmarks()
    ensures DaysSinceEpoch(YEAR_10000) == 2_932_897 && ValidDate(YEAR_10000)
    ensures DaysSinceEpoch(EPOCH) == 0 && ValidDate(EPOCH)
  {
    assert YearStart(9_999) == 3_652_059 && MonthStart(10) == 306 && YearStart(1_969) == 719_162;
  }

  /** The date-time grammar of RFC 3339, section 5.6, gives the year four digits, which holds up to the end of 9999
      and not after. */
  lemma FourDigitYears(seconds: nat)
    ensures FieldsAt(seconds).date.year <= 9_999 <==> seconds < 253_402_300_800
    ensures 1_970 <= FieldsAt(seconds).date.year
  {
    var d := FieldsAt(seconds).date;
    DateAfterCounts(seconds / 86_400);
    Landmarks();
    if DateBefore(d, YEAR_10000) {
      LaterDateCountsMore(d, YEAR_10000);
    } else if DateBefore(YEAR_10000, d) {
      LaterDateCountsMore(YEAR_10000, d);
    }
    if DateBefore(d, EPOCH) {
      LaterDateCountsMore(d, EPOCH);
    }
  }
}
