/** The build stamp's closed-form calendar conversion, against counting days one by one. */
module Gregorian {

  datatype Date = Date(year: int, month: int, day: int)

  /** A build stamp: the date, the hour and the minute. */
  datatype Stamp = Stamp(date: Date, hour: nat, minute: nat)

  // ----- The closed form

  function Civil(n: nat): Date {
    var e := Quarters(n);
    FromMarch(e / 1461, e % 1461 / 4)
  }

  /** Quarter days since the start of a count whose years begin in March. */
  function Quarters(n: nat): int {
    var j := n + 2440588;
    var f := j + 1401 + (((4 * j + 274277) / 146097) * 3) / 4 - 38;
    4 * f + 3
  }

  /** Day `g` of the year that starts on March 1 of year `y - 4716`. */
  function FromMarch(y: int, g: int): Date {
    var h := 5 * g + 2;
    var day := (h % 153) / 5 + 1;
    var month := (h / 153 + 2) % 12 + 1;
    Date(y - 4716 + (14 - month) / 12, month, day)
  }

  function FromUnix(secs: nat): Stamp {
    var timeOfDay := secs % 86400;
    Stamp(Civil(secs / 86400), timeOfDay / 3600, timeOfDay % 3600 / 60)
  }

  // ----- The calendar

  predicate Leap(year: int) {
    year % 4 == 0 && (year % 100 != 0 || year % 400 == 0)
  }

  function MonthLength(year: int, month: int): int {
    if month == 2 then if Leap(year) then 29 else 28
    else if month in {4, 6, 9, 11} then 30 else 31
  }

  predicate Valid(d: Date) {
    1 <= d.month <= 12 && 1 <= d.day <= MonthLength(d.year, d.month)
  }

  function Successor(d: Date): Date {
    if d.day < MonthLength(d.year, d.month) then d.(day := d.day + 1)
    else if d.month < 12 then Date(d.year, d.month + 1, 1)
    else Date(d.year + 1, 1, 1)
  }

  const EPOCH := Date(1970, 1, 1)

  function Counted(n: nat): Date {
    if n == 0 then EPOCH else Successor(Counted(n - 1))
  }

  // ----- Years that begin in March

  /** Days before month `m` of the March-based year. */
  function DaysBefore(m: int): int
    requires 0 <= m <= 12
  {
    [0, 31, 61, 92, 122, 153, 184, 214, 245, 275, 306, 337, 366][m]
  }

  lemma MonthOf(y: int, g: int, m: int)
    requires 0 <= m <= 11 && DaysBefore(m) <= g < DaysBefore(m + 1)
    ensures FromMarch(y, g) == Date(y - 4716 + (if m < 10 then 0 else 1), (m + 2) % 12 + 1, g - DaysBefore(m) + 1)
  {
    assert (5 * g + 2) / 153 == m;
  }

  lemma FindMonth(g: int) returns (m: int)
    requires 0 <= g <= 365
    ensures 0 <= m <= 11 && DaysBefore(m) <= g < DaysBefore(m + 1)
  {
    m := 11;
    while g < DaysBefore(m)
      invariant 0 <= m <= 11 && g < DaysBefore(m + 1)
    {
      m := m - 1;
    }
  }

  lemma MonthLengths(y: int, m: int)
    requires 0 <= m <= 10
    ensures MonthLength(y, (m + 2) % 12 + 1) == DaysBefore(m + 1) - DaysBefore(m)
  {
  }

  lemma WithinMonth(y: int, g: int, m: int)
    requires 0 <= m <= 11 && DaysBefore(m) <= g <= 363 && g + 1 < DaysBefore(m + 1)
    ensures FromMarch(y, g + 1) == Successor(FromMarch(y, g)) && Valid(FromMarch(y, g))
  {
    MonthOf(y, g, m);
    MonthOf(y, g + 1, m);
    if m < 11 { MonthLengths(y - 4716 + (if m < 10 then 0 else 1), m); }
  }

  lemma EndOfMonth(y: int, g: int, m: int)
    requires 0 <= m <= 10 && g + 1 == DaysBefore(m + 1)
    ensures FromMarch(y, g + 1) == Successor(FromMarch(y, g)) && Valid(FromMarch(y, g))
  {
    MonthOf(y, g, m);
    MonthOf(y, g + 1, m + 1);
    MonthLengths(y - 4716 + (if m < 10 then 0 else 1), m);
    NextMonth(m);
  }

  lemma NextMonth(m: int)
    requires 0 <= m <= 10
    ensures (m + 1 + 2) % 12 + 1 == if m == 9 then 1 else (m + 2) % 12 + 2
    ensures (m + 2) % 12 + 1 == 12 <==> m == 9
  {
  }

  /** Within the March-based year the calendar advances day by day up to February 28. */
  lemma WithinYear(y: int, g: int)
    requires 0 <= g <= 363
    ensures FromMarch(y, g + 1) == Successor(FromMarch(y, g)) && Valid(FromMarch(y, g))
  {
    var m := FindMonth(g);
    if g + 1 < DaysBefore(m + 1) { WithinMonth(y, g, m); } else { EndOfMonth(y, g, m); }
  }

  lemma FebruaryEnds(y: int)
    ensures FromMarch(y, 364) == Date(y - 4715, 2, 28) && FromMarch(y, 365) == Date(y - 4715, 2, 29)
    ensures FromMarch(y, 0) == Date(y - 4716, 3, 1)
  {
  }

  // ----- Where the count of quarter days jumps

  lemma Divide1461(q: int, r: int)
    requires 0 <= r < 1461
    ensures (1461 * q + r) / 1461 == q && (1461 * q + r) % 1461 == r
  {
  }

  lemma Divide146097(q: int, r: int)
    requires 0 <= r < 146097
    ensures (146097 * q + r) / 146097 == q
  {
  }

  lemma CenturyDigits(q: int, r: int)
    requires 0 <= r < 100
    ensures (100 * q + r) % 100 == r && (100 * q + r) % 4 == r % 4
  {
    assert 100 * q + r == 4 * (25 * q) + r;
  }

  lemma BlockDigits(q: int, b: int)
    requires 0 <= b < 4
    ensures (400 * q + 100 * b) % 400 == 100 * b
  {
  }

  /** Day `n` lies at quarter day `s` of century `b` of the 400-year block `a`. */
  ghost predicate At(n: nat, a: int, b: int, s: int) {
    0 <= b < 4 && 0 <= s < 146097 && 4 * (n + 2440588) + 274277 == 146097 * (4 * a + b) + s
  }

  lemma Place(n: nat) returns (a: int, b: int, s: int)
    ensures At(n, a, b, s)
  {
    var x := 4 * (n + 2440588) + 274277;
    a, b, s := x / 146097 / 4, x / 146097 % 4, x % 146097;
  }

  function Offset(b: int): int {
    if b == 0 then 2 else b - 2
  }

  lemma QuartersAt(n: nat, a: int, b: int, s: int)
    requires At(n, a, b, s)
    ensures Quarters(n) == 1461 * (400 * a + 100 * b - 184) + s + Offset(b)
    ensures s % 4 == (5 - b) % 4
  {
    Divide146097(4 * a + b, s);
    ThreeQuarters(a, b);
    QuarterOf(n, a, b, s);
  }

  lemma QuarterOf(n: nat, a: int, b: int, s: int)
    requires At(n, a, b, s)
    ensures s % 4 == (5 - b) % 4
  {
    assert s == 4 * (n + 2440588 + 68569 - 146097 * a - 36524 * b) + 1 - b;
  }

  lemma ThreeQuarters(a: int, b: int)
    requires 0 <= b < 4
    ensures (4 * a + b) * 3 / 4 == 3 * a + b * 3 / 4
  {
  }

  /** Away from the end of a century February 28 before a rule-of-four leap day is
      followed by that leap day. */
  lemma MidCentury(n: nat, a: int, b: int, s: int)
    requires At(n, a, b, s) && s + 4 < 146097
    ensures Quarters(n + 1) == Quarters(n) + 4
    ensures Quarters(n) % 1461 == 1456 ==> Leap(Quarters(n) / 1461 - 4715)
  {
    QuartersAt(n, a, b, s);
    QuartersAt(n + 1, a, b, s + 4);
    MidCenturyYear(Quarters(n), a, b, s);
  }

  lemma MidCenturyYear(e: int, a: int, b: int, s: int)
    requires 0 <= b < 4 && 0 <= s < 146093 && s % 4 == (5 - b) % 4
    requires e == 1461 * (400 * a + 100 * b - 184) + s + Offset(b)
    ensures e % 1461 == 1456 ==> Leap(e / 1461 - 4715)
  {
    if e % 1461 == 1456 {
      var k := e / 1461 - (400 * a + 100 * b - 184);
      assert s + Offset(b) == 1461 * k + 1456;
      MidCenturyLeap(a, b, k, 1456);
    }
  }

  lemma MidCenturyLeap(a: int, b: int, k: int, r: int)
    requires 0 <= k <= 98 && (r == 1456 || r == 1460) && (1461 * k + r) % 4 == 3
    ensures Leap(400 * a + 100 * b - 184 + k - 4715)
  {
    CenturyDigits(4 * a + b - 49, k + 1);
    assert 400 * a + 100 * b - 184 + k - 4715 == 100 * (4 * a + b - 49) + (k + 1);
  }

  lemma CenturyYear(a: int, b: int)
    requires 0 <= b < 4
    ensures Leap(400 * (a - 12) + 100 * b) <==> b == 0
  {
    CenturyDigits(4 * (a - 12) + b, 0);
    BlockDigits(a - 12, b);
    assert 400 * (a - 12) + 100 * b == 100 * (4 * (a - 12) + b) + 0;
  }

  lemma LastQuarter(b: int, s: int)
    requires 0 <= b < 4 && 146093 <= s < 146097 && s % 4 == (5 - b) % 4
    ensures s + Offset(b) == 146095
  {
  }

  /** The last day of each century bin is February 28 of a century year, which is a leap
      year for the first bin of a block alone. */
  lemma EndOfCentury(n: nat, a: int, b: int, s: int)
    requires At(n, a, b, s) && s + 4 >= 146097
    ensures Quarters(n) % 1461 == 1456
    ensures Leap(Quarters(n) / 1461 - 4715) <==> b == 0
    ensures Quarters(n + 1) == Quarters(n) + if b == 0 then 4 else 8
  {
    QuartersAt(n, a, b, s);
    LastQuarter(b, s);
    CenturyYear(a, b);
    Divide1461(400 * a + 100 * b - 85, 1456);
    assert Quarters(n) == 1461 * (400 * a + 100 * b - 85) + 1456;
    if b < 3 {
      QuartersAt(n + 1, a, b + 1, s + 4 - 146097);
    } else {
      QuartersAt(n + 1, a + 1, 0, s + 4 - 146097);
    }
  }

  /** A day is four quarters, or eight after February 28 of a century year without a leap day. */
  lemma QuartersStep(n: nat, e: int, e': int)
    requires e == Quarters(n) && e' == Quarters(n + 1)
    ensures e' == e + if e % 1461 == 1456 && !Leap(e / 1461 - 4715) then 8 else 4
  {
    var a, b, s := Place(n);
    if s + 4 < 146097 {
      MidCentury(n, a, b, s);
    } else {
      EndOfCentury(n, a, b, s);
    }
  }

  /** A day that lands on February 29 is in a leap year. */
  lemma LeapDay(n: nat, e: int)
    requires e == Quarters(n)
    ensures e % 1461 == 1460 ==> Leap(e / 1461 - 4715)
  {
    var a, b, s := Place(n);
    QuartersAt(n, a, b, s);
    LeapDayYear(e, a, b, s);
  }

  lemma FourCenturies(x: int)
    ensures Leap(400 * x)
  {
    assert 400 * x == 4 * (100 * x);
  }

  lemma BlockLeap(a: int, b: int, s: int, k: int)
    requires 0 <= b < 4 && 0 <= s && k < 0 && s + Offset(b) == 1461 * k + 1460
    ensures Leap(400 * a + 100 * b - 184 + k - 4715)
  {
    assert k == -1 && b == 1;
    FourCenturies(a - 12);
  }

  lemma LeapDayYear(e: int, a: int, b: int, s: int)
    requires 0 <= b < 4 && 0 <= s < 146097 && s % 4 == (5 - b) % 4
    requires e == 1461 * (400 * a + 100 * b - 184) + s + Offset(b)
    ensures e % 1461 == 1460 ==> Leap(e / 1461 - 4715)
  {
    if e % 1461 == 1460 {
      var k := e / 1461 - (400 * a + 100 * b - 184);
      assert e == 1461 * (e / 1461) + 1460;
      assert s + Offset(b) == 1461 * k + 1460;
      if k >= 0 {
        MidCenturyLeap(a, b, k, 1460);
      } else {
        BlockLeap(a, b, s, k);
      }
    }
  }

  // ----- The closed form is the calendar

  /** One step of the quarter-day count is one step of the calendar. */
  lemma CalendarStep(e: int, e': int)
    requires e % 4 == 3 && (e % 1461 == 1460 ==> Leap(e / 1461 - 4715))
    requires e' == e + if e % 1461 == 1456 && !Leap(e / 1461 - 4715) then 8 else 4
    ensures Valid(FromMarch(e / 1461, e % 1461 / 4))
    ensures FromMarch(e' / 1461, e' % 1461 / 4) == Successor(FromMarch(e / 1461, e % 1461 / 4))
  {
    var y, r := e / 1461, e % 1461;
    assert e == 1461 * y + r;
    if r < 1456 {
      Divide1461(y, r + 4);
      assert (r + 4) / 4 == r / 4 + 1;
      WithinYear(y, r / 4);
    } else if e' == e + 4 && r == 1456 {
      Divide1461(y, 1460);
      FebruaryEnds(y);
    } else {
      YearEnds(y, r, e' - e);
    }
  }

  /** From the last day of a March-based year to the first of the next. */
  lemma YearEnds(y: int, r: int, step: int)
    requires 1456 <= r < 1461 && (1461 * y + r) % 4 == 3 && (r == 1460 ==> Leap(y - 4715))
    requires step == if r == 1456 && !Leap(y - 4715) then 8 else 4
    requires !(step == 4 && r == 1456)
    ensures Valid(FromMarch(y, r / 4))
    ensures FromMarch((1461 * y + r + step) / 1461, (1461 * y + r + step) % 1461 / 4) == Successor(FromMarch(y, r / 4))
  {
    FebruaryEnds(y);
    FebruaryEnds(y + 1);
    Divide1461(y + 1, r + step - 1461);
    assert 1461 * y + r + step == 1461 * (y + 1) + (r + step - 1461);
    if r != 1456 && r != 1460 { NoLeapDay(y, r); }
  }

  lemma NoLeapDay(y: int, r: int)
    requires 1457 <= r <= 1459 && (1461 * y + r) % 4 == 3
    ensures !Leap(y - 4715)
  {
    assert 1461 * y + r == 4 * (365 * y) + (y + r);
  }

  lemma QuartersOdd(n: nat, e: int)
    requires e == Quarters(n)
    ensures e % 4 == 3
  {
  }

  lemma StepDates(d: Date, d': Date, n: nat, e: int, e': int)
    requires e == Quarters(n) && e' == Quarters(n + 1)
    requires d == FromMarch(e / 1461, e % 1461 / 4) && d' == FromMarch(e' / 1461, e' % 1461 / 4)
    ensures Valid(d) && d' == Successor(d)
  {
    QuartersOdd(n, e);
    LeapDay(n, e);
    QuartersStep(n, e, e');
    CalendarStep(e, e');
  }

  /** Every day number gives a valid date and the next number the next date. */
  lemma CivilStep(n: nat)
    ensures Valid(Civil(n)) && Civil(n + 1) == Successor(Civil(n))
  {
    StepDates(Civil(n), Civil(n + 1), n, Quarters(n), Quarters(n + 1));
  }

  lemma CivilStart()
    ensures Civil(0) == EPOCH
  {
    assert At(0, 17, 0, 102033);
    QuartersAt(0, 17, 0, 102033);
    assert Quarters(0) == 9768011;
    MonthOf(6685, 306, 10);
  }

  /** The closed form agrees with counting days from January 1, 1970. */
  lemma {:induction false} CivilIsCounted(n: nat)
    ensures Civil(n) == Counted(n)
  {
    if n == 0 {
      CivilStart();
    } else {
      CivilIsCounted(n - 1);
      CivilStep(n - 1);
    }
  }

  lemma MinuteRest(minutes: nat, v: nat)
    requires v < 60
    ensures (60 * minutes + v) % 60 == v
  {
  }

  lemma ClockSplits(secs: nat)
    ensures secs == 86400 * (secs / 86400) + 3600 * (secs % 86400 / 3600) + 60 * (secs % 86400 % 3600 / 60) + secs % 60
  {
    var d, t := secs / 86400, secs % 86400;
    var h, u := t / 3600, t % 3600;
    var m, v := u / 60, u % 60;
    MinuteRest(1440 * d + 60 * h + m, v);
  }

  /** A stamp names the minute that contains the given second. */
  lemma StampIsCounted(secs: nat) returns (n: nat, s: nat)
    ensures FromUnix(secs).date == Counted(n) && FromUnix(secs).hour < 24 && FromUnix(secs).minute < 60 && s < 60
    ensures secs == 86400 * n + 3600 * FromUnix(secs).hour + 60 * FromUnix(secs).minute + s
  {
    n, s := secs / 86400, secs % 60;
    ClockSplits(secs);
    CivilIsCounted(n);
  }
}
