/** The closed-form date of a UTC timestamp is the date reached by counting days and seconds from 1970-01-01. */
module Calendar {
  datatype Date = Date(year: int, month: int, day: int)

  datatype Stamp = Stamp(date: Date, hour: int, minute: int, second: int)

  function YearOfEra(dayOfEra: int): int {
    (dayOfEra - dayOfEra / 1460 + dayOfEra / 36524 - dayOfEra / 146096) / 365
  }

  /** Days before a year of the era; years run from March. */
  function YearStart(yearOfEra: int): int { 365 * yearOfEra + yearOfEra / 4 - yearOfEra / 100 }

  function FromDayOfYear(marchYear: int, dayOfYear: int): Date {
    var monthPart := (5 * dayOfYear + 2) / 153;
    var day := dayOfYear - (153 * monthPart + 2) / 5 + 1;
    var month := monthPart + (if monthPart < 10 then 3 else -9);
    Date(marchYear + (if month <= 2 then 1 else 0), month, day)
  }

  /** The arithmetic of the timestamp: eras of 400 years. */
  function Civil(days: int): Date {
    var z := days + 719468;
    var era := (if z >= 0 then z else z - 146096) / 146097;
    var dayOfEra := z - era * 146097;
    var yearOfEra := YearOfEra(dayOfEra);
    FromDayOfYear(yearOfEra + era * 400, dayOfEra - YearStart(yearOfEra))
  }

  function Clock(date: Date, daySeconds: int): Stamp {
    Stamp(date, daySeconds / 3600, daySeconds % 3600 / 60, daySeconds % 60)
  }

  function Timestamp(seconds: nat): Stamp { Clock(Civil(seconds / 86400), seconds % 86400) }

  // ------------------------------------------------------------ counting day by day

  /** The Gregorian leap rule. */
  predicate Leap(year: int) { year % 4 == 0 && (year % 100 != 0 || year % 400 == 0) }

  function DaysIn(year: int, month: int): int {
    if month == 2 then (if Leap(year) then 29 else 28)
    else if month == 4 || month == 6 || month == 9 || month == 11 then 30
    else 31
  }

  predicate Valid(d: Date) { 1 <= d.month <= 12 && 1 <= d.day <= DaysIn(d.year, d.month) }

  function NextDay(d: Date): Date {
    if d.day < DaysIn(d.year, d.month) then d.(day := d.day + 1)
    else if d.month < 12 then Date(d.year, d.month + 1, 1)
    else Date(d.year + 1, 1, 1)
  }

  function Counted(days: nat): Date { if days == 0 then Date(1970, 1, 1) else NextDay(Counted(days - 1)) }

  function NextSecond(s: Stamp): Stamp {
    if s.second < 59 then s.(second := s.second + 1)
    else if s.minute < 59 then s.(minute := s.minute + 1, second := 0)
    else if s.hour < 23 then s.(hour := s.hour + 1, minute := 0, second := 0)
    else Stamp(NextDay(s.date), 0, 0, 0)
  }

  function CountedSeconds(seconds: nat): Stamp {
    if seconds == 0 then Stamp(Date(1970, 1, 1), 0, 0, 0) else NextSecond(CountedSeconds(seconds - 1))
  }

  predicate Earlier(a: Date, b: Date) {
    a.year < b.year || (a.year == b.year && (a.month < b.month || (a.month == b.month && a.day < b.day)))
  }

  // ------------------------------------------------------------- the day of a date

  /** The year that starts in March. */
  function MarchYear(d: Date): int { if d.month <= 2 then d.year - 1 else d.year }

  function MonthPart(month: int): int { if month > 2 then month - 3 else month + 9 }

  function DayOfYear(d: Date): int { (153 * MonthPart(d.month) + 2) / 5 + d.day - 1 }

  /** Days from 1970-01-01 to this date. */
  function DayNumber(d: Date): int {
    var y := MarchYear(d);
    y / 400 * 146097 + YearStart(y % 400) + DayOfYear(d) - 719468
  }

  lemma {:induction false} AtLeastOnce(d: int, x: int)
    requires d > 0
    ensures x >= 1 ==> d * x >= d
    ensures x <= -1 ==> d * x <= -d
  {
  }

  lemma {:induction false} Quotient(n: int, divisor: int, q: int, r: int)
    requires divisor > 0 && 0 <= r < divisor && n == divisor * q + r
    ensures n / divisor == q && n % divisor == r
  {
    var x := n / divisor - q;
    assert divisor * x == r - n % divisor;
    AtLeastOnce(divisor, x);
  }

  /** March years as centuries, olympiads and years. */
  lemma {:induction false} SplitYear(y: int) returns (c: int, q: int, t: int)
    requires 0 <= y < 400
    ensures 0 <= c <= 3 && 0 <= q <= 24 && 0 <= t <= 3 && y == 100 * c + 4 * q + t
    ensures y / 4 == 25 * c + q && y / 100 == c
    ensures YearStart(y) == 36524 * c + 1461 * q + 365 * t
    ensures Leap(y + 1) <==> t == 3 && (q < 24 || c == 3)
  {
    c := y / 100;
    q := y % 100 / 4;
    t := y % 4;
    assert y == 100 * c + 4 * q + t;
    Quotient(y, 4, 25 * c + q, t);
    if t == 3 {
      Quotient(y + 1, 4, 25 * c + q + 1, 0);
      if q < 24 { Quotient(y + 1, 100, c, 4 * q + 4); } else { Quotient(y + 1, 100, c + 1, 0); }
    } else {
      Quotient(y + 1, 4, 25 * c + q, t + 1);
    }
  }

  /** The year formula is right: it finds the March year that holds the day. */
  lemma {:induction false} YearFound(y: int, k: int)
    requires 0 <= y < 400 && 0 <= k <= (if Leap(y + 1) then 365 else 364)
    ensures var doe := YearStart(y) + k;
            && 0 <= doe < 146097
            && YearOfEra(doe) == y
  {
    var c, q, t := SplitYear(y);
    var doe := YearStart(y) + k;
    var rest := 1461 * q + 365 * t + k;
    assert doe == 36524 * c + rest;
    if rest == 36524 {
      assert c == 3 && doe == 146096;
    } else {
      Quotient(doe, 36524, c, rest);
      assert doe < 146096;
    }
    assert doe / 36524 - doe / 146096 == c;
    var over := 24 * c + q + 365 * t + k;
    assert doe == 1460 * (25 * c + q) + over;
    if over < 1460 {
      Quotient(doe, 1460, 25 * c + q, over);
      Quotient(365 * y + k, 365, y, k);
    } else {
      Quotient(doe, 1460, 25 * c + q + 1, over - 1460);
      Quotient(365 * y + k - 1, 365, y, k - 1);
    }
  }

  /** The month formula is right for every valid date. */
  lemma {:induction false} MonthFound(d: Date)
    requires Valid(d)
    ensures var k := DayOfYear(d);
            && 0 <= k <= (if Leap(MarchYear(d) + 1) then 365 else 364)
            && FromDayOfYear(MarchYear(d), k) == d
  {
  }

  lemma {:induction false} LeapCycle(year: int)
    ensures Leap(year) == Leap(year % 400) == Leap(year % 400 + 400)
  {
    var r := year % 400;
    assert year == 400 * (year / 400) + r;
    Quotient(year, 4, 100 * (year / 400) + r / 4, r % 4);
    Quotient(year, 100, 4 * (year / 400) + r / 100, r % 100);
  }

  lemma {:induction false} CivilOf(era: int, y: int, k: int)
    requires era >= 0 && 0 <= y < 400 && 0 <= k <= (if Leap(y + 1) then 365 else 364)
    ensures Civil(era * 146097 + YearStart(y) + k - 719468) == FromDayOfYear(y + era * 400, k)
  {
    YearFound(y, k);
    Quotient(era * 146097 + (YearStart(y) + k), 146097, era, YearStart(y) + k);
  }

  /** The closed form inverts the day number of every valid date. */
  lemma {:induction false} CivilInverts(d: Date)
    requires Valid(d) && DayNumber(d) >= -719468
    ensures Civil(DayNumber(d)) == d
  {
    var y := MarchYear(d);
    MonthFound(d);
    LeapOfMarchYear(y);
    YearFound(y % 400, DayOfYear(d));
    CivilOf(y / 400, y % 400, DayOfYear(d));
  }

  lemma {:induction false} LeapOfMarchYear(y: int)
    ensures Leap(y + 1) == Leap(y % 400 + 1)
  {
    LeapCycle(y + 1);
    LeapCycle(y % 400 + 1);
    var r := y % 400;
    if r < 399 { Quotient(y + 1, 400, y / 400, r + 1); } else { Quotient(y + 1, 400, y / 400 + 1, 0); }
  }

  lemma {:induction false} YearStartStep(r: int)
    requires 0 <= r < 400
    ensures (if r < 399 then YearStart(r + 1) else 146097) == YearStart(r) + (if Leap(r + 1) then 366 else 365)
  {
    var c, q, t := SplitYear(r);
    if t < 3 {
      Quotient(r + 1, 4, 25 * c + q, t + 1);
      Quotient(r + 1, 100, c, 4 * q + t + 1);
    } else if q < 24 {
      Quotient(r + 1, 4, 25 * c + q + 1, 0);
      Quotient(r + 1, 100, c, 4 * q + 4);
    } else {
      Quotient(r + 1, 4, 25 * c + 25, 0);
      Quotient(r + 1, 100, c + 1, 0);
    }
  }

  /** The first of March comes one year length later. */
  lemma {:induction false} YearLength(y: int)
    ensures (y + 1) / 400 * 146097 + YearStart((y + 1) % 400)
            == y / 400 * 146097 + YearStart(y % 400) + (if Leap(y + 1) then 366 else 365)
  {
    var r := y % 400;
    LeapOfMarchYear(y);
    YearStartStep(r);
    if r < 399 { Quotient(y + 1, 400, y / 400, r + 1); } else { Quotient(y + 1, 400, y / 400 + 1, 0); }
  }

  lemma {:induction false} NextDayIsValid(d: Date)
    requires Valid(d)
    ensures Valid(NextDay(d)) && Earlier(d, NextDay(d))
  {
  }

  lemma {:induction false} SameYearCounts(d: Date)
    requires Valid(d) && !(d.month == 2 && d.day == DaysIn(d.year, 2))
    ensures MarchYear(NextDay(d)) == MarchYear(d) && DayOfYear(NextDay(d)) == DayOfYear(d) + 1
  {
  }

  /** One day on, the day number is one more. */
  lemma {:induction false} NextDayCounts(d: Date)
    requires Valid(d)
    ensures DayNumber(NextDay(d)) == DayNumber(d) + 1
  {
    if d.month == 2 && d.day == DaysIn(d.year, 2) {
      YearLength(MarchYear(d));
    } else {
      SameYearCounts(d);
    }
  }

  lemma {:induction false} CountedDay(days: nat)
    ensures Valid(Counted(days)) && DayNumber(Counted(days)) == days
  {
    if days > 0 {
      CountedDay(days - 1);
      NextDayIsValid(Counted(days - 1));
      NextDayCounts(Counted(days - 1));
    }
  }

  /** For every day from 1970-01-01 on, the closed form is the date counted day by day. */
  lemma {:induction false} CivilIsCounted(days: nat)
    ensures Civil(days) == Counted(days) && Valid(Civil(days))
  {
    CountedDay(days);
    CivilInverts(Counted(days));
  }

  /** Every later date is reached, on the day its number says. */
  lemma {:induction false} EveryDateIsReached(d: Date)
    requires Valid(d) && DayNumber(d) >= 0
    ensures Counted(DayNumber(d)) == d && Civil(DayNumber(d)) == d
  {
    CivilInverts(d);
    CivilIsCounted(DayNumber(d));
  }

  lemma {:induction false} EarlierTransitive(a: Date, b: Date, c: Date)
    requires Earlier(a, b) && Earlier(b, c)
    ensures Earlier(a, c)
  {
  }

  lemma {:induction false} CountedIncreases(m: nat, n: nat)
    requires m < n
    ensures Earlier(Counted(m), Counted(n))
    decreases n
  {
    CountedDay(n - 1);
    NextDayIsValid(Counted(n - 1));
    if m < n - 1 {
      CountedIncreases(m, n - 1);
      EarlierTransitive(Counted(m), Counted(n - 1), Counted(n));
    }
  }

  /** Later days have later dates. */
  lemma {:induction false} DatesIncrease(m: nat, n: nat)
    requires m < n
    ensures Earlier(Civil(m), Civil(n))
  {
    CivilIsCounted(m);
    CivilIsCounted(n);
    CountedIncreases(m, n);
  }

  /** All fields of a timestamp are in range, and it is the one counted second by second. */
  lemma {:induction false} TimestampIsCounted(seconds: nat)
    ensures Timestamp(seconds) == CountedSeconds(seconds)
    ensures var t := Timestamp(seconds);
            Valid(t.date) && 0 <= t.hour < 24 && 0 <= t.minute < 60 && 0 <= t.second < 60
  {
    CivilIsCounted(seconds / 86400);
    ClockCarries(Civil(seconds / 86400), seconds % 86400);
    if seconds > 0 {
      TimestampIsCounted(seconds - 1);
      SecondsCarry(seconds - 1);
    }
  }

  lemma {:induction false} ClockCarries(date: Date, s: int)
    requires 0 <= s < 86400
    ensures var c := Clock(date, s); 0 <= c.hour < 24 && 0 <= c.minute < 60 && 0 <= c.second < 60
    ensures s < 86399 ==> Clock(date, s + 1) == NextSecond(Clock(date, s))
    ensures s == 86399 ==> Clock(NextDay(date), 0) == NextSecond(Clock(date, s))
  {
    var h, m, r := s / 3600, s % 3600 / 60, s % 3600 % 60;
    Quotient(s, 60, 60 * h + m, r);
    if r < 59 {
      Quotient(s + 1, 60, 60 * h + m, r + 1);
      Quotient(s + 1, 3600, h, 60 * m + r + 1);
      Quotient(60 * m + r + 1, 60, m, r + 1);
    } else if m < 59 {
      Quotient(s + 1, 60, 60 * h + m + 1, 0);
      Quotient(s + 1, 3600, h, 60 * m + 60);
    } else {
      Quotient(s + 1, 60, 60 * h + 60, 0);
      Quotient(s + 1, 3600, h + 1, 0);
    }
  }

  lemma {:induction false} NextCivil(day: nat)
    ensures Civil(day + 1) == NextDay(Civil(day))
  {
    CivilIsCounted(day);
    CivilIsCounted(day + 1);
    NextCounted(day);
  }

  lemma {:induction false} NextCounted(day: nat)
    ensures Counted(day + 1) == NextDay(Counted(day))
  {
  }

  lemma {:induction false} SecondsCarry(seconds: nat)
    ensures Timestamp(seconds + 1) == NextSecond(Timestamp(seconds))
  {
    var day := seconds / 86400;
    var rest := seconds % 86400;
    NextCivil(day);
    ClockCarries(Civil(day), rest);
    if rest < 86399 { Quotient(seconds + 1, 86400, day, rest + 1); } else { Quotient(seconds + 1, 86400, day + 1, 0); }
  }
}
