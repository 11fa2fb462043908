/** Calendar arithmetic of the RTC example. */
module Calendar {
  /// A 32-bit second counter and the broken-down date read from it.  The proleptic calendar below is
  /// the reference; the class is the code.

  // ----- the reference calendar -----

  const SECONDS_PER_DAY := 86400
  const COUNTER_MODULUS := 0x1_0000_0000
  const DAY_2100_JANUARY_1 := 47482

  predicate Leap(year: nat) {
    year % 4 == 0 && (year % 100 == 0 ==> year % 400 == 0)
  }

  function YearLength(year: nat): (days: nat)
    ensures 365 <= days <= 366
  {
    if Leap(year) then 366 else 365
  }

  /** mon_table: days of the month with index m0 (January is 0) in a common year. */
  function MonthTable(m0: nat): (days: nat)
    requires m0 < 12
    ensures 28 <= days <= 31
  {
    [31, 28, 31, 30, 31, 30, 31, 31, 30, 31, 30, 31][m0]
  }

  function MonthLength(year: nat, m0: nat): (days: nat)
    requires m0 < 12
    ensures 28 <= days <= 31
  {
    MonthTable(m0) + if Leap(year) && m0 == 1 then 1 else 0
  }

  /** Days from 1 January 1970 to 1 January of the given year. */
  function DaysBeforeYear(year: nat): nat
    requires year >= 1970
  {
    if year == 1970 then 0 else DaysBeforeYear(year - 1) + YearLength(year - 1)
  }

  /** Days from 1 January to the first day of month m0 of the year; m0 == 12 is the year's end. */
  function DaysBeforeMonth(year: nat, m0: nat): nat
    requires m0 <= 12
  {
    if m0 == 0 then 0 else DaysBeforeMonth(year, m0 - 1) + MonthLength(year, m0 - 1)
  }

  datatype Date = Date(year: nat, month: nat, day: nat)
  datatype TimeOfDay = TimeOfDay(hour: nat, minute: nat, second: nat)

  predicate ValidDate(d: Date) {
    && d.year >= 1970
    && 1 <= d.month <= 12
    && 1 <= d.day <= MonthLength(d.year, d.month - 1)
  }

  predicate ValidTime(t: TimeOfDay) {
    t.hour < 24 && t.minute < 60 && t.second < 60
  }

  /** Day number of a date, counted from 1 January 1970.  The day part may lie outside the
  month: day 0 is the last day of the month before. */
  function DayNumber(d: Date): int
    requires d.year >= 1970 && 1 <= d.month <= 13
  {
    DaysBeforeYear(d.year) + DaysBeforeMonth(d.year, d.month - 1) + d.day - 1
  }

  function SecondOfDay(t: TimeOfDay): nat {
    t.hour * 3600 + t.minute * 60 + t.second
  }

  /** The year reached by walking forward from `year` while whole years fit into n days, and
  the days left over. */
  function YearOf(year: nat, n: nat): (r: (nat, nat))
    requires year >= 1970
    ensures r.0 >= year && r.1 < YearLength(r.0)
    ensures DaysBeforeYear(r.0) + r.1 == DaysBeforeYear(year) + n
    decreases n
  {
    if n < YearLength(year) then (year, n) else YearOf(year + 1, n - YearLength(year))
  }

  /** The month (index) reached by walking forward from m0 while whole months fit. */
  function MonthOf(year: nat, m0: nat, n: nat): (r: (nat, nat))
    requires m0 < 12 && DaysBeforeMonth(year, m0) + n < DaysBeforeMonth(year, 12)
    ensures m0 <= r.0 < 12 && r.1 < MonthLength(year, r.0)
    ensures DaysBeforeMonth(year, r.0) + r.1 == DaysBeforeMonth(year, m0) + n
    decreases 12 - m0
  {
    if n < MonthLength(year, m0) then (m0, n)
    else
      assert m0 < 11;
      MonthOf(year, m0 + 1, n - MonthLength(year, m0))
  }

  lemma {:induction false} MonthStarts(year: nat, m0: nat)
    requires m0 <= 12
    ensures DaysBeforeMonth(year, m0) ==
            [0, 31, 59, 90, 120, 151, 181, 212, 243, 273, 304, 334, 365][m0]
            + if Leap(year) && m0 >= 2 then 1 else 0
  {
    if m0 > 0 {
      MonthStarts(year, m0 - 1);
    }
  }

  lemma YearIsTwelveMonths(year: nat)
    ensures DaysBeforeMonth(year, 12) == YearLength(year)
  {
    MonthStarts(year, 12);
  }

  /** The date with a given day number. */
  function DateOf(n: nat): Date {
    var (year, rest) := YearOf(1970, n);
    YearIsTwelveMonths(year);
    var (m0, day0) := MonthOf(year, 0, rest);
    Date(year, m0 + 1, day0 + 1)
  }

  function TimeOf(s: nat): TimeOfDay {
    TimeOfDay(s / 3600, (s % 3600) / 60, (s % 3600) % 60)
  }

  // ----- decoding and encoding undo each other -----

  lemma {:induction false} YearStartsIncrease(y: nat, z: nat)
    requires 1970 <= y < z
    ensures DaysBeforeYear(y) + YearLength(y) <= DaysBeforeYear(z)
  {
    if y + 1 < z {
      YearStartsIncrease(y, z - 1);
    }
  }

  lemma {:induction false} MonthStartsIncrease(year: nat, m: nat, k: nat)
    requires m < k <= 12
    ensures DaysBeforeMonth(year, m) + MonthLength(year, m) <= DaysBeforeMonth(year, k)
  {
    if m + 1 < k {
      MonthStartsIncrease(year, m, k - 1);
    }
  }

  lemma DateOfIsValid(n: nat)
    ensures ValidDate(DateOf(n)) && DayNumber(DateOf(n)) == n
  {
  }

  /** Every day number is the number of exactly one valid date, and DateOf finds it. */
  lemma DateOfIsTheDate(n: nat, d: Date)
    requires ValidDate(d)
    ensures DayNumber(d) == n <==> d == DateOf(n)
  {
    DateOfIsValid(n);
    if DayNumber(d) == n {
      DayNumberIsInjective(d, DateOf(n));
    }
  }

  lemma DayNumberIsInjective(d: Date, e: Date)
    requires ValidDate(d) && ValidDate(e) && DayNumber(d) == DayNumber(e)
    ensures d == e
  {
    DayInYear(d);
    DayInYear(e);
    if d.year < e.year {
      YearStartsIncrease(d.year, e.year);
    } else if e.year < d.year {
      YearStartsIncrease(e.year, d.year);
    } else if d.month < e.month {
      MonthStartsIncrease(d.year, d.month - 1, e.month - 1);
    } else if e.month < d.month {
      MonthStartsIncrease(d.year, e.month - 1, d.month - 1);
    }
  }

  lemma DayInYear(d: Date)
    requires ValidDate(d)
    ensures DaysBeforeYear(d.year) <= DayNumber(d) < DaysBeforeYear(d.year) + YearLength(d.year)
  {
    YearIsTwelveMonths(d.year);
    MonthStartsIncrease(d.year, d.month - 1, 12);
  }

  lemma TimeOfIsTheTime(t: TimeOfDay)
    requires ValidTime(t)
    ensures SecondOfDay(t) < SECONDS_PER_DAY && TimeOf(SecondOfDay(t)) == t
  {
    assert SecondOfDay(t) == 3600 * t.hour + (60 * t.minute + t.second);
  }

  // ----- the day of the week -----

  /** RTC_Get_Week on a year that fits its 8-bit century arithmetic (1900 to 2155). */
  function WeekOf(year: nat, month: nat, day: nat): nat
    requires 1900 <= year < 2156 && 1 <= month <= 12
  {
    var yearL := year % 100 + if year / 100 > 19 then 100 else 0;
    var sum := (yearL + yearL / 4) % 7 + day + [0, 3, 3, 6, 1, 4, 6, 2, 5, 0, 3, 5][month - 1];
    (if yearL % 4 == 0 && month < 3 then sum - 1 else sum) % 7
  }

  lemma LeapUntil2106(year: nat)
    requires 1970 <= year <= 2106
    ensures Leap(year) <==> year % 4 == 0 && year != 2100
  {
    if year % 100 == 0 {
      assert year == 2000 || year == 2100;
    }
  }

  /** Leap days between 1970 and the year, where the century years up to 2000 do not matter. */
  lemma {:induction false} YearStartClosedForm(year: nat)
    requires 1970 <= year <= 2106
    ensures DaysBeforeYear(year) ==
            365 * (year - 1970) + (year - 1969) / 4 - if year > 2100 then 1 else 0
  {
    hide Leap;
    if year > 1970 {
      YearStartClosedForm(year - 1);
      LeapUntil2106(year - 1);
    }
  }

  /** The week formula gives the true day of the week (Thursday 1 January 1970 is day 4)
  exactly for the dates before 1 January 2100: it takes a year of the 22nd century for the
  same year of the 21st. */
  lemma WeekIsDayNumberModSeven(d: Date)
    requires ValidDate(d) && d.year <= 2106
    ensures WeekOf(d.year, d.month, d.day) == (DayNumber(d) + 4) % 7
            <==> DayNumber(d) < DAY_2100_JANUARY_1
  {
    YearStartClosedForm(2100);
    DayInYear(d);
    if d.year < 2100 {
      YearStartsIncrease(d.year, 2100);
      WeekBefore2100(d);
    } else {
      if d.year > 2100 {
        YearStartsIncrease(2100, d.year);
      }
      WeekFrom2100(d);
    }
  }

  lemma WeekBefore2100(d: Date)
    requires ValidDate(d) && d.year < 2100
    ensures WeekOf(d.year, d.month, d.day) == (DayNumber(d) + 4) % 7
  {
    YearStartClosedForm(d.year);
    MonthStarts(d.year, d.month - 1);
    WeekCountsFourYearLeaps(d.year, d.month - 1, d.day);
  }

  lemma WeekFrom2100(d: Date)
    requires ValidDate(d) && 2100 <= d.year <= 2106
    ensures WeekOf(d.year, d.month, d.day) != (DayNumber(d) + 4) % 7
  {
    hide DayNumber, DaysBeforeYear, DaysBeforeMonth, MonthLength;
    var (y, m0) := (d.year - 100, d.month - 1);
    WeekCountsFourYearLeaps(y, m0, d.day);
    CenturyFold(y, d.month, d.day);
    DayNumberFrom2100(d);
    CenturyShiftsTheWeek(WeekOf(y, d.month, d.day), 365 * (y - 1970) + (y - 1969) / 4
             + [0, 31, 59, 90, 120, 151, 181, 212, 243, 273, 304, 334, 365][m0]
             + (if y % 4 == 0 && m0 >= 2 then 1 else 0) + d.day + 3, DayNumber(d) + 4);
  }

  lemma DayNumberFrom2100(d: Date)
    requires ValidDate(d) && 2100 <= d.year <= 2106
    ensures var (y, m0) := (d.year - 100, d.month - 1);
            var x := 365 * (y - 1970) + (y - 1969) / 4
                     + [0, 31, 59, 90, 120, 151, 181, 212, 243, 273, 304, 334, 365][m0]
                     + (if y % 4 == 0 && m0 >= 2 then 1 else 0) + d.day - 1;
            x + 36524 <= DayNumber(d) <= x + 36525
  {
    YearStartClosedForm(d.year);
    MonthStarts(d.year, d.month - 1);
    OnlyLeapYearFrom2100(d.year);
    var q := (d.year - 2069) / 4;
    assert (d.year - 1969) / 4 == q + 25;
    assert DaysBeforeYear(d.year) == 365 * (d.year - 2070) + q + 36525 - if d.year > 2100 then 1 else 0;
  }

  lemma OnlyLeapYearFrom2100(y: nat)
    requires 2100 <= y <= 2106
    ensures Leap(y) <==> y == 2104
    ensures (y - 100) % 4 == 0 <==> y == 2100 || y == 2104
  {
  }

  lemma CenturyFold(y: nat, month: nat, day: nat)
    requires 2000 <= y <= 2006 && 1 <= month <= 12
    ensures WeekOf(y + 100, month, day) == WeekOf(y, month, day)
  {
  }

  lemma CenturyShiftsTheWeek(week: int, x: int, n: int)
    requires week == x % 7 && x + 36524 <= n <= x + 36525
    ensures week != n % 7
  {
  }

  /** Before 2100 the week formula is the day number of a calendar in which every fourth year is
  leap. */
  lemma WeekCountsFourYearLeaps(y: nat, m0: nat, day: nat)
    requires 1970 <= y <= 2099 && m0 < 12
    ensures WeekOf(y, m0 + 1, day) ==
            (365 * (y - 1970) + (y - 1969) / 4
             + [0, 31, 59, 90, 120, 151, 181, 212, 243, 273, 304, 334, 365][m0]
             + (if y % 4 == 0 && m0 >= 2 then 1 else 0) + day + 3) % 7
  {
    var base := [0, 31, 59, 90, 120, 151, 181, 212, 243, 273, 304, 334, 365][m0];
    var table := [0, 3, 3, 6, 1, 4, 6, 2, 5, 0, 3, 5][m0];
    assert base == 7 * (base / 7) + table;
    var yearL := y - 1900;
    assert yearL == y % 100 + if y / 100 > 19 then 100 else 0;
    assert yearL / 4 == (y - 1969) / 4 + 17 + if y % 4 == 0 then 1 else 0;
    CongruentModSeven(yearL + yearL / 4, day + table - if yearL % 4 == 0 && m0 < 2 then 1 else 0,
                      365 * (y - 1970) + (y - 1969) / 4 + base + (if y % 4 == 0 && m0 >= 2 then 1 else 0) + day + 3,
                      52 * (y - 1970) + base / 7 - 12);
  }

  lemma CongruentModSeven(a: int, b: int, c: int, k: int)
    requires c == a + b + 7 * k
    ensures (a % 7 + b) % 7 == c % 7
  {
    assert c == (a % 7 + b) + 7 * (a / 7 + k);
  }

  // ----- what the counter holds -----

  /** The value RTC_Set stores for a date and time, before conversion to 32 bits. */
  function SecondCount(d: Date, t: TimeOfDay): int
    requires d.year >= 1970 && 1 <= d.month <= 13
  {
    DayNumber(d) * SECONDS_PER_DAY + SecondOfDay(t)
  }

  lemma SplitSeconds(days: nat, second: nat)
    requires second < SECONDS_PER_DAY
    ensures (days * SECONDS_PER_DAY + second) / SECONDS_PER_DAY == days
    ensures (days * SECONDS_PER_DAY + second) % SECONDS_PER_DAY == second
  {
  }

  lemma DayNumberIsBounded(d: Date)
    requires ValidDate(d) && d.year <= 2099
    ensures 0 <= DayNumber(d) < DAY_2100_JANUARY_1
  {
    hide MonthLength, DaysBeforeMonth;
    DayInYear(d);
    YearStartsIncrease(d.year, 2100);
    YearStartClosedForm(2100);
  }

  /** Setting a valid date and time and reading it back returns it: nothing overflows, and the
  week is right. */
  lemma SetThenGet(d: Date, t: TimeOfDay)
    requires ValidDate(d) && d.year <= 2099 && ValidTime(t)
    ensures 0 <= SecondCount(d, t) < COUNTER_MODULUS
    ensures DateOf(SecondCount(d, t) / SECONDS_PER_DAY) == d
    ensures TimeOf(SecondCount(d, t) % SECONDS_PER_DAY) == t
    ensures WeekOf(d.year, d.month, d.day) == (SecondCount(d, t) / SECONDS_PER_DAY + 4) % 7
  {
    hide DateOf, TimeOf, WeekOf, DaysBeforeYear, DaysBeforeMonth, SecondOfDay, MonthLength;
    DayNumberIsBounded(d);
    TimeOfIsTheTime(t);
    SplitSeconds(DayNumber(d), SecondOfDay(t));
    DateOfIsTheDate(DayNumber(d), d);
    WeekBefore2100(d);
  }

  /** Setting what was read restores the counter, for every counter value. */
  lemma GetThenSet(counter: nat)
    ensures ValidDate(DateOf(counter / SECONDS_PER_DAY))
    ensures ValidTime(TimeOf(counter % SECONDS_PER_DAY))
    ensures SecondCount(DateOf(counter / SECONDS_PER_DAY), TimeOf(counter % SECONDS_PER_DAY)) == counter
  {
    DateOfIsValid(counter / SECONDS_PER_DAY);
  }

  // ----- the code -----

  type u8 = x: nat | x < 0x100
  type u16 = x: nat | x < 0x1_0000
  type u32 = x: nat | x < 0x1_0000_0000

  lemma CounterYearFits(n: nat)
    requires n <= 49710
    ensures DateOf(n).year <= 2106
  {
    DateOfIsValid(n);
    var d := DateOf(n);
    DayInYear(d);
    YearStartClosedForm(2106);
    if d.year > 2106 {
      assert DaysBeforeYear(2107) == DaysBeforeYear(2106) + 365;
      if d.year > 2107 {
        YearStartsIncrease(2107, d.year);
      }
      assert false;
    }
  }

  class Rtc {
    var counter: u32   // the hardware second counter
    var daycnt: u16    // day number the cached date was computed for
    var w_year: u16
    var w_month: u8
    var w_date: u8
    var hour: u8
    var min: u8
    var sec: u8
    var week: u8

    /** The cached date belongs to the cached day number. */
    predicate CacheCurrent()
      reads this
    {
      Date(w_year, w_month, w_date) == DateOf(daycnt)
    }

    /** The cache is stale only while nothing but day 0 has ever been read. */
    predicate Valid()
      reads this
    {
      CacheCurrent() || (daycnt == 0 && Date(w_year, w_month, w_date) == Date(0, 0, 0))
    }

    /** Static storage is zero: day number 0, but not its date. */
    constructor (start: u32)
      ensures Valid() && counter == start && daycnt == 0 && !CacheCurrent()
    {
      counter := start;
      daycnt, w_year, w_month, w_date := 0, 0, 0, 0;
      hour, min, sec, week := 0, 0, 0, 0;
      new;
      DateOfIsValid(0);
    }

    /** RTC_Set.  Any argument may be out of range; `inTable` says whether the month keeps the index
    of mon_table in range, without which C says nothing about what follows. */
    method Set(syear: u16, smon: u8, sday: u8, h: u8, mi: u8, s: u8) returns (error: u8, inTable: bool)
      modifies `counter
      ensures error == if 1970 <= syear <= 2099 then 0 else 1
      ensures inTable <==> error == 1 || 1 <= smon <= 13
      ensures error == 1 ==> counter == old(counter)
      ensures error == 0 && inTable ==>
                counter == SecondCount(Date(syear, smon, sday), TimeOfDay(h, mi, s)) % COUNTER_MODULUS
    {
      inTable := true;
      if syear < 1970 || syear > 2099 {
        return 1, true;
      }
      var seccount: u32 := 0;
      var t: u16 := 1970;
      YearStartClosedForm(syear);
      while t < syear
        invariant 1970 <= t <= syear
        invariant seccount == DaysBeforeYear(t) * SECONDS_PER_DAY
      {
        YearStartClosedForm(t + 1);
        if Leap(t) {
          seccount := seccount + 31622400;
        } else {
          seccount := seccount + 31536000;
        }
        t := t + 1;
      }
      if smon == 0 || smon > 13 {
        return 0, false;
      }
      seccount := AddMonths(seccount, syear, smon - 1);
      counter := AddDayAndTime(seccount, sday, h, mi, s);
      return 0, true;
    }

    /** Second loop of RTC_Set: add whole months. */
    static method AddMonths(yearStart: u32, syear: u16, months: u8) returns (seccount: u32)
      requires yearStart <= 47482 * SECONDS_PER_DAY && months <= 12
      ensures seccount == yearStart + DaysBeforeMonth(syear, months) * SECONDS_PER_DAY
    {
      seccount := yearStart;
      var t: u16 := 0;
      while t < months
        invariant 0 <= t <= months
        invariant seccount == yearStart + DaysBeforeMonth(syear, t) * SECONDS_PER_DAY
        invariant DaysBeforeMonth(syear, t) <= 31 * t
      {
        seccount := seccount + MonthTable(t) * 86400;
        if Leap(syear) && t == 1 {
          seccount := seccount + 86400;
        }
        t := t + 1;
      }
    }

    /** The last four additions of RTC_Set; sday - 1 is a signed subtraction converted to unsigned. */
    static method AddDayAndTime(monthStart: u32, sday: u8, h: u8, mi: u8, s: u8) returns (seccount: u32)
      ensures seccount == (monthStart + (sday - 1) * 86400 + h * 3600 + mi * 60 + s) % COUNTER_MODULUS
    {
      var days: u32 := (sday - 1) % COUNTER_MODULUS;
      seccount := (monthStart + (days * 86400) % COUNTER_MODULUS) % COUNTER_MODULUS;
      seccount := (seccount + h * 3600) % COUNTER_MODULUS;
      seccount := (seccount + mi * 60) % COUNTER_MODULUS;
      seccount := (seccount + s) % COUNTER_MODULUS;
      SumModulo(monthStart, sday - 1, h * 3600, mi * 60, s);
    }

    /** RTC_Get.  The week lookup reads table_week[month - 1]; `inTable` says whether that index
    is in range.  It is not before a first day other than day 0 has been read. */
    method Get() returns (inTable: bool)
      requires Valid()
      modifies this
      ensures Valid() && counter == old(counter) && daycnt == counter / SECONDS_PER_DAY
      ensures CacheCurrent() <==> old(CacheCurrent()) || daycnt != 0
      ensures inTable <==> CacheCurrent()
      ensures TimeOfDay(hour, min, sec) == TimeOf(counter % SECONDS_PER_DAY)
      ensures inTable ==> 1970 <= w_year <= 2106 && 1 <= w_month <= 12 && 1 <= w_date
      ensures inTable ==> week == WeekOf(w_year, w_month, w_date)
    {
      RefreshDate(counter / 86400);
      CachedDateIsValid(daycnt);
      hour, min, sec := SplitTime(counter % 86400);
      inTable := 1 <= w_month <= 12;
      if inTable {
        week := GetWeek(w_year, w_month, w_date);
      }
    }

    /** The part of RTC_Get that recomputes the date when the day has changed. */
    method RefreshDate(temp: u32)
      requires Valid() && temp <= 49710
      modifies `daycnt, `w_year, `w_month, `w_date
      ensures daycnt == temp
      ensures if temp == old(daycnt)
              then Date(w_year, w_month, w_date) == old(Date(w_year, w_month, w_date))
              else CacheCurrent()
    {
      if daycnt != temp {
        var y, rest := TakeYears(temp);
        var m, d := TakeMonths(y, rest);
        CachedDateIsValid(temp);
        daycnt, w_year, w_month, w_date := temp, y, m, d;
      }
    }

    static method SplitTime(temp: u32) returns (h: u8, mi: u8, s: u8)
      requires temp < SECONDS_PER_DAY
      ensures TimeOfDay(h, mi, s) == TimeOf(temp)
    {
      h := temp / 3600;
      mi := (temp % 3600) / 60;
      s := (temp % 3600) % 60;
    }

    /** First loop of RTC_Get: subtract whole years. */
    static method TakeYears(days: u32) returns (year: u16, rest: u32)
      requires days <= 49710
      ensures (year as nat, rest as nat) == YearOf(1970, days)
    {
      year, rest := 1970, days;
      while rest >= 365
        invariant 1970 <= year && YearOf(year, rest) == YearOf(1970, days)
        decreases rest
      {
        CounterYearFits(days);
        if Leap(year) {
          if rest >= 366 {
            rest := rest - 366;
          } else {
            break;
          }
        } else {
          rest := rest - 365;
        }
        year := year + 1;
      }
    }

    /** Second loop of RTC_Get: subtract whole months. */
    static method TakeMonths(year: u16, days: u32) returns (month: u8, date: u8)
      requires days < YearLength(year)
      ensures DaysBeforeMonth(year, 12) == YearLength(year)
      ensures var (m0, d0) := MonthOf(year, 0, days); month == m0 + 1 && date == d0 + 1
    {
      YearIsTwelveMonths(year);
      var temp: nat, temp1: u16 := days, 0;
      while temp >= 28
        invariant temp1 < 12 && DaysBeforeMonth(year, temp1) + temp < DaysBeforeMonth(year, 12)
        invariant MonthOf(year, temp1, temp) == MonthOf(year, 0, days)
        decreases temp
      {
        if Leap(year) && temp1 == 1 {
          if temp >= 29 {
            temp := temp - 29;
          } else {
            break;
          }
        } else {
          if temp >= MonthTable(temp1) {
            temp := temp - MonthTable(temp1);
          } else {
            break;
          }
        }
        temp1 := temp1 + 1;
      }
      month, date := temp1 + 1, temp + 1;
    }

    /** RTC_Get_Week, with its 8-bit century arithmetic. */
    static method GetWeek(year: u16, month: u8, day: u8) returns (w: u8)
      requires 1 <= month <= 12
      ensures 1900 <= year < 2156 && 1 <= day ==> w == WeekOf(year, month, day)
      ensures w < 7
    {
      var yearH: u8 := (year / 100) % 0x100;
      var yearL: u8 := year % 100;
      if yearH > 19 {
        yearL := yearL + 100;
      }
      var temp2: u16 := yearL + yearL / 4;
      temp2 := temp2 % 7;
      temp2 := temp2 + day + [0, 3, 3, 6, 1, 4, 6, 2, 5, 0, 3, 5][month - 1];
      if yearL % 4 == 0 && month < 3 {
        temp2 := (temp2 - 1) % 0x1_0000;
      }
      w := temp2 % 7;
    }
  }

  /** RTC_Set and then RTC_Get, for a valid date and time: the cached date, time and week are those
  set, except that the date of day 0 is not seen until another day has been read. */
  method SetThenRead(rtc: Rtc, d: Date, t: TimeOfDay) returns (inTable: bool)
    requires rtc.Valid() && ValidDate(d) && d.year <= 2099 && ValidTime(t)
    modifies rtc
    ensures rtc.Valid() && TimeOfDay(rtc.hour, rtc.min, rtc.sec) == t
    ensures Date(rtc.w_year, rtc.w_month, rtc.w_date) == d <==> old(rtc.CacheCurrent()) || DayNumber(d) != 0
    ensures inTable <==> rtc.CacheCurrent()
    ensures inTable <==> Date(rtc.w_year, rtc.w_month, rtc.w_date) == d
    ensures inTable ==> rtc.week == (DayNumber(d) + 4) % 7
  {
    hide DateOf, TimeOf, WeekOf, DaysBeforeYear, DaysBeforeMonth, SecondOfDay, MonthLength;
    SetThenGet(d, t);
    TimeOfIsTheTime(t);
    DayNumberIsBounded(d);
    SplitSeconds(DayNumber(d), SecondOfDay(t));
    var _, _ := rtc.Set(d.year, d.month, d.day, t.hour, t.minute, t.second);
    assert rtc.counter == SecondCount(d, t);
    inTable := rtc.Get();
    assert rtc.daycnt == DayNumber(d);
  }

  /** After reset, setting 1 January 1970 and reading it back gives no date at all. */
  method FirstDayIsNotSeen() returns (year: u16, month: u8, date: u8)
    ensures year == 0 && month == 0 && date == 0
  {
    var rtc := new Rtc(0);
    var d := Date(1970, 1, 1);
    assert DayNumber(d) == 0;
    assert rtc.Valid() && !rtc.CacheCurrent();
    var _ := SetThenRead(rtc, d, TimeOfDay(0, 0, 0));
    year, month, date := rtc.w_year, rtc.w_month, rtc.w_date;
  }

  lemma CachedDateIsValid(n: u16)
    requires n <= 49710
    ensures 1970 <= DateOf(n).year <= 2106 && ValidDate(DateOf(n))
  {
    CounterYearFits(n);
    DateOfIsValid(n);
  }

  lemma SumModulo(a: nat, d: int, x: nat, y: nat, z: nat)
    ensures ((((a + ((d % COUNTER_MODULUS) * 86400) % COUNTER_MODULUS) % COUNTER_MODULUS + x) % COUNTER_MODULUS + y)
             % COUNTER_MODULUS + z) % COUNTER_MODULUS == (a + d * 86400 + x + y + z) % COUNTER_MODULUS
  {
    var q := d / COUNTER_MODULUS;
    assert d * 86400 == (d % COUNTER_MODULUS) * 86400 + COUNTER_MODULUS * (86400 * q);
  }
}
