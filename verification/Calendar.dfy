// The integer calendar: a day count from 1970-01-01 becomes a Gregorian date.
// The reference is the calendar itself, one day after another.

module Calendar {
  datatype Date = Date(year: int, month: int, day: int)

  const EPOCH := Date(1970, 1, 1)

  // ---- The calendar, day by day ----

  predicate Leap(y: int) { y % 4 == 0 && (y % 100 != 0 || y % 400 == 0) }

  function DaysIn(y: int, m: int): int {
    if m == 2 then (if Leap(y) then 29 else 28)
    else if m == 4 || m == 6 || m == 9 || m == 11 then 30
    else 31
  }

  predicate IsDate(d: Date) { 1 <= d.month <= 12 && 1 <= d.day <= DaysIn(d.year, d.month) }

  function Tomorrow(d: Date): Date {
    if d.day < DaysIn(d.year, d.month) then d.(day := d.day + 1)
    else if d.month < 12 then Date(d.year, d.month + 1, 1)
    else Date(d.year + 1, 1, 1)
  }

  function Yesterday(d: Date): Date {
    if d.day > 1 then d.(day := d.day - 1)
    else if d.month > 1 then Date(d.year, d.month - 1, DaysIn(d.year, d.month - 1))
    else Date(d.year - 1, 12, 31)
  }

  /** The date `n` days after the epoch, or before it, by counting. */
  function Counted(n: int): Date
    decreases if n < 0 then -n else n
  {
    if n == 0 then EPOCH
    else if n > 0 then Tomorrow(Counted(n - 1))
    else Yesterday(Counted(n + 1))
  }

  predicate Before(a: Date, b: Date) {
    a.year < b.year || (a.year == b.year && (a.month < b.month || (a.month == b.month && a.day < b.day)))
  }

  // ---- The arithmetic ----

  /** Division rounding toward zero. */
  function Quot(a: int, b: int): int
    requires b > 0
  {
    if a >= 0 then a / b else -((-a) / b)
  }

  function CivilFromDays(days: int): Date {
    var z := days + 719468;
    var era := Quot(if z >= 0 then z else z - 146096, 146097);
    var doe := z - era * 146097;
    var yoe := Quot(doe - Quot(doe, 1460) + Quot(doe, 36524) - Quot(doe, 146096), 365);
    var year := yoe + era * 400;
    var doy := doe - (365 * yoe + Quot(yoe, 4) - Quot(yoe, 100));
    var mp := Quot(5 * doy + 2, 153);
    var day := doy - Quot(153 * mp + 2, 5) + 1;
    var month := if mp < 10 then mp + 3 else mp - 9;
    Date(if month <= 2 then year + 1 else year, month, day)
  }

  /** The inverse: how many days after the epoch a date is. */
  function DaysFromCivil(d: Date): int {
    MarchDays(if d.month <= 2 then d.year - 1 else d.year, (d.month + 9) % 12, d.day - 1)
  }

  // ---- Years that begin in March ----

  /** Days before March of year `y`, from March of year 0. */
  function YearStart(y: int): int { 365 * y + y / 4 - y / 100 + y / 400 }

  function MonthStart(mp: int): int { (153 * mp + 2) / 5 }

  function MarchDays(y: int, mp: int, dd: int): int { YearStart(y) + MonthStart(mp) + dd - 719468 }

  function Civil(y: int, mp: int, dd: int): Date {
    var month := if mp < 10 then mp + 3 else mp - 9;
    Date(if month <= 2 then y + 1 else y, month, dd + 1)
  }

  predicate InMarchYear(y: int, mp: int, dd: int) {
    0 <= mp < 12 && 0 <= dd && IsDate(Civil(y, mp, dd))
  }

  lemma StepsOf(y: int, k: int)
    requires k > 1
    ensures y / k - (y - 1) / k == if y % k == 0 then 1 else 0
  {
    if y % k == 0 {
      var q := y / k;
      assert y - 1 == (q - 1) * k + (k - 1);
      QuotientIs(y - 1, q - 1, k - 1, k);
    } else {
      QuotientIs(y - 1, y / k, y % k - 1, k);
    }
  }

  lemma QuotientIs(a: int, q: int, r: int, k: int)
    requires k > 0 && 0 <= r < k && a == q * k + r
    ensures a / k == q && a % k == r
  {
    var d := q - a / k;
    assert d * k == a % k - r;
    assert d >= 1 ==> d * k >= k;
    assert d <= -1 ==> d * k <= -k;
  }

  /** A year that begins in March ends with the leap day of the next civil year. */
  lemma YearLength(y: int)
    ensures YearStart(y + 1) - YearStart(y) == if Leap(y + 1) then 366 else 365
  {
    StepsOf(y + 1, 4);
    StepsOf(y + 1, 100);
    StepsOf(y + 1, 400);
  }

  /** The divisions that find the year of an era find it: `c` centuries, `q` groups of four years and
      `r` years into the era, and `doy` days into the year. */
  lemma YearOfEra(c: int, q: int, r: int, doy: int)
    requires 0 <= c < 4 && 0 <= q < 25 && 0 <= r < 4
    requires 0 <= doy <= if r == 3 && (q < 24 || c == 3) then 365 else 364
    ensures
      var doe := 36524 * c + 1461 * q + 365 * r + doy;
      && 0 <= doe < 146097
      && (doe - doe / 1460 + doe / 36524 - doe / 146096) / 365 == 100 * c + 4 * q + r
  {
    var doe := 36524 * c + 1461 * q + 365 * r + doy;
    var rest := 24 * c + q + 365 * r + doy;
    var e := if rest >= 1460 then 1 else 0;
    assert doe == 1460 * (25 * c + q + e) + (rest - 1460 * e);
    assert doe / 1460 == 25 * c + q + e;
    var last := if doe == 146096 then 1 else 0;
    assert doe / 146096 == last;
    assert doe / 36524 == c + last;
    assert doe - doe / 1460 + doe / 36524 - doe / 146096 == 365 * (100 * c + 4 * q + r) + (doy - e);
  }

  /** Splitting a year of an era. */
  lemma Centuries(yoe: int) returns (c: int, q: int, r: int)
    requires 0 <= yoe < 400
    ensures 0 <= c < 4 && 0 <= q < 25 && 0 <= r < 4
    ensures yoe == 100 * c + 4 * q + r
    ensures yoe / 4 == 25 * c + q && yoe / 100 == c
    ensures Leap(yoe + 1) <==> r == 3 && (q < 24 || c == 3)
  {
    c, q, r := yoe / 100, (yoe % 100) / 4, yoe % 4;
  }

  lemma EraShift(era: int, yoe: int)
    requires 0 <= yoe < 400
    ensures YearStart(era * 400 + yoe) == era * 146097 + 365 * yoe + yoe / 4 - yoe / 100
  {
    QuotientIs(era * 400 + yoe, era * 100 + yoe / 4, yoe % 4, 4);
    QuotientIs(era * 400 + yoe, era * 4 + yoe / 100, yoe % 100, 100);
    QuotientIs(era * 400 + yoe, era, yoe, 400);
  }

  lemma LeapShift(era: int, y: int)
    requires 0 < y <= 400
    ensures Leap(era * 400 + y) <==> Leap(y)
  {
    QuotientIs(era * 400 + y, era * 100 + y / 4, y % 4, 4);
    QuotientIs(era * 400 + y, era * 4 + y / 100, y % 100, 100);
    QuotientIs(era * 400 + y, if y < 400 then era else era + 1, if y < 400 then y else 0, 400);
  }

  lemma MonthOfYear(mp: int, dd: int)
    requires 0 <= mp < 12 && 0 <= dd
    requires dd < if mp == 11 then 29 else if mp == 1 || mp == 3 || mp == 6 || mp == 8 then 30 else 31
    ensures (5 * (MonthStart(mp) + dd) + 2) / 153 == mp
    ensures 0 <= MonthStart(mp) + dd < 366
  {
  }

  /** A day of a month of a March year, as the divisions take it apart: era, day of the era, year of the
      era. */
  lemma DayOfEra(y: int, mp: int, dd: int) returns (era: int, doe: int, yoe: int)
    requires InMarchYear(y, mp, dd)
    ensures 0 <= yoe < 400 && 0 <= doe < 146097 && y == era * 400 + yoe
    ensures MarchDays(y, mp, dd) + 719468 == era * 146097 + doe
    ensures (doe - doe / 1460 + doe / 36524 - doe / 146096) / 365 == yoe
    ensures doe == 365 * yoe + yoe / 4 - yoe / 100 + MonthStart(mp) + dd
    ensures (5 * (MonthStart(mp) + dd) + 2) / 153 == mp
  {
    era, yoe := y / 400, y % 400;
    EraShift(era, yoe);
    LeapShift(era, yoe + 1);
    var c, q, r := Centuries(yoe);
    var doy := MonthStart(mp) + dd;
    MonthOfYear(mp, dd);
    DayOfYear(y, mp, dd);
    YearOfEra(c, q, r, doy);
    doe := 36524 * c + 1461 * q + 365 * r + doy;
  }

  lemma DayOfYear(y: int, mp: int, dd: int)
    requires InMarchYear(y, mp, dd)
    ensures 0 <= MonthStart(mp) + dd <= if Leap(y + 1) then 365 else 364
  {
  }

  /** Any day written as a day of a month of a March year comes out as that date. */
  lemma CivilOfMarch(y: int, mp: int, dd: int)
    requires InMarchYear(y, mp, dd)
    ensures CivilFromDays(MarchDays(y, mp, dd)) == Civil(y, mp, dd)
  {
    var era, doe, yoe := DayOfEra(y, mp, dd);
    EraOf(era * 146097 + doe, era, doe);
    CivilOfEra(MarchDays(y, mp, dd), era, doe, yoe, mp, dd);
  }

  /** The adjustment before a truncating division makes it round down. */
  lemma EraOf(z: int, era: int, doe: int)
    requires 0 <= doe < 146097 && z == era * 146097 + doe
    ensures Quot(if z >= 0 then z else z - 146096, 146097) == era
  {
    if z >= 0 {
      QuotientIs(z, era, doe, 146097);
    } else {
      QuotientIs(146096 - z, -era, 146096 - doe, 146097);
    }
  }

  lemma CivilOfEra(days: int, era: int, doe: int, yoe: int, mp: int, dd: int)
    requires 0 <= mp < 12 && 0 <= dd && 0 <= yoe < 400 && 0 <= doe < 146097
    requires Quot(if days + 719468 >= 0 then days + 719468 else days + 719468 - 146096, 146097) == era
    requires days + 719468 == era * 146097 + doe
    requires (doe - doe / 1460 + doe / 36524 - doe / 146096) / 365 == yoe
    requires doe == 365 * yoe + yoe / 4 - yoe / 100 + MonthStart(mp) + dd
    requires (5 * (MonthStart(mp) + dd) + 2) / 153 == mp
    ensures CivilFromDays(days) == Civil(era * 400 + yoe, mp, dd)
  {
    var n := doe - doe / 1460 + doe / 36524 - doe / 146096;
    assert n >= 0;
    assert doe - (365 * yoe + yoe / 4 - yoe / 100) == MonthStart(mp) + dd;
  }

  /** Every day is a day of a month of a March year. */
  lemma {:induction false} EveryDay(n: int) returns (y: int, mp: int, dd: int)
    ensures InMarchYear(y, mp, dd) && MarchDays(y, mp, dd) == n
    decreases if n < 0 then -n else n
  {
    if n == 0 {
      y, mp, dd := 1969, 10, 0;
    } else if n > 0 {
      y, mp, dd := EveryDay(n - 1);
      y, mp, dd := NextDay(y, mp, dd);
    } else {
      y, mp, dd := EveryDay(n + 1);
      y, mp, dd := DayBefore(y, mp, dd);
    }
  }

  lemma NextDay(y: int, mp: int, dd: int) returns (y': int, mp': int, dd': int)
    requires InMarchYear(y, mp, dd)
    ensures InMarchYear(y', mp', dd') && MarchDays(y', mp', dd') == MarchDays(y, mp, dd) + 1
    ensures Civil(y', mp', dd') == Tomorrow(Civil(y, mp, dd))
  {
    YearLength(y);
    var d := Civil(y, mp, dd);
    if d.day < DaysIn(d.year, d.month) {
      y', mp', dd' := y, mp, dd + 1;
    } else if mp < 11 {
      y', mp', dd' := y, mp + 1, 0;
    } else {
      y', mp', dd' := y + 1, 0, 0;
    }
  }

  lemma DayBefore(y: int, mp: int, dd: int) returns (y': int, mp': int, dd': int)
    requires InMarchYear(y, mp, dd)
    ensures InMarchYear(y', mp', dd') && MarchDays(y', mp', dd') == MarchDays(y, mp, dd) - 1
  {
    YearLength(y - 1);
    if dd > 0 {
      y', mp', dd' := y, mp, dd - 1;
    } else if mp > 0 {
      y', mp', dd' := y, mp - 1, MonthStart(mp) - MonthStart(mp - 1) - 1;
    } else {
      y', mp', dd' := y - 1, 11, if Leap(y) then 28 else 27;
    }
  }

  lemma CivilOfDay(n: int) returns (y: int, mp: int, dd: int)
    ensures InMarchYear(y, mp, dd) && MarchDays(y, mp, dd) == n
    ensures CivilFromDays(n) == Civil(y, mp, dd)
  {
    y, mp, dd := EveryDay(n);
    CivilOfMarch(y, mp, dd);
  }

  lemma MarchOfDate(d: Date) returns (y: int, mp: int, dd: int)
    requires IsDate(d)
    ensures InMarchYear(y, mp, dd) && Civil(y, mp, dd) == d && MarchDays(y, mp, dd) == DaysFromCivil(d)
  {
    y, mp, dd := if d.month <= 2 then d.year - 1 else d.year, (d.month + 9) % 12, d.day - 1;
  }

  lemma MarchRecovered(y: int, mp: int, dd: int)
    requires InMarchYear(y, mp, dd)
    ensures DaysFromCivil(Civil(y, mp, dd)) == MarchDays(y, mp, dd)
  {
  }

  // ---- Main results ----

  /** The inverse day count recovers every day, and every date. */
  lemma DaysRecovered(n: int)
    ensures IsDate(CivilFromDays(n)) && DaysFromCivil(CivilFromDays(n)) == n
  {
    var y, mp, dd := CivilOfDay(n);
    MarchRecovered(y, mp, dd);
  }

  lemma DateRecovered(d: Date)
    requires IsDate(d)
    ensures CivilFromDays(DaysFromCivil(d)) == d
  {
    var y, mp, dd := MarchOfDate(d);
    CivilOfMarch(y, mp, dd);
  }

  lemma CivilOfNext(n: int, y: int, mp: int, dd: int) returns (t: Date)
    requires InMarchYear(y, mp, dd) && MarchDays(y, mp, dd) == n
    ensures CivilFromDays(n + 1) == t == Tomorrow(Civil(y, mp, dd))
  {
    var y', mp', dd' := NextDay(y, mp, dd);
    CivilOfMarch(y', mp', dd');
    t := Civil(y', mp', dd');
  }

  /** The next day is the next date. */
  lemma DayAfter(n: int)
    ensures CivilFromDays(n + 1) == Tomorrow(CivilFromDays(n))
  {
    var y, mp, dd := CivilOfDay(n);
    var t := CivilOfNext(n, y, mp, dd);
  }

  lemma YesterdayUndoes(d: Date)
    requires IsDate(d)
    ensures Yesterday(Tomorrow(d)) == d && IsDate(Tomorrow(d)) && Before(d, Tomorrow(d))
  {
  }

  lemma DayBeforeIs(n: int)
    ensures CivilFromDays(n) == Yesterday(CivilFromDays(n + 1))
  {
    DayAfter(n);
    DaysRecovered(n);
    YesterdayUndoes(CivilFromDays(n));
  }

  /** For every day count, before or after the epoch, the arithmetic finds the date that counting
      day by day finds. */
  lemma {:induction false} CivilIsCounted(n: int)
    ensures CivilFromDays(n) == Counted(n)
    decreases if n < 0 then -n else n
  {
    if n > 0 {
      CivilIsCounted(n - 1);
      DayAfter(n - 1);
    } else if n < 0 {
      CivilIsCounted(n + 1);
      DayBeforeIs(n);
    }
  }

  lemma CountedStep(n: int)
    ensures IsDate(Counted(n)) && Counted(n + 1) == Tomorrow(Counted(n))
  {
    CivilIsCounted(n);
    CivilIsCounted(n + 1);
    DaysRecovered(n);
    DayAfter(n);
  }

  /** Later days have later dates. */
  lemma {:induction false} DatesIncrease(m: int, n: int)
    requires m < n
    ensures Before(Counted(m), Counted(n))
    decreases n - m
  {
    CountedStep(n - 1);
    YesterdayUndoes(Counted(n - 1));
    if m < n - 1 {
      DatesIncrease(m, n - 1);
    }
  }
}
