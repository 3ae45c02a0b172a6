/** Calendar arithmetic of the subscription periods. The first period is added by Go's AddDate, which
    carries surplus days into the following month; the later ones by PostgreSQL's interval addition,
    which stops at the last day of the month. Dates are proleptic Gregorian, times are UTC. */
module Calendar {
  datatype Date = Date(year: nat, month: nat, day: nat)

  datatype Interval = EveryMonth | EveryYear

  datatype Stamp = Stamp(date: Date, seconds: nat)

  const DAY: nat := 86400

  predicate Leap(year: nat) {
    year % 4 == 0 && (year % 100 != 0 || year % 400 == 0)
  }

  function DaysIn(year: nat, month: nat): nat {
    if month == 2 then (if Leap(year) then 29 else 28)
    else if month in {4, 6, 9, 11} then 30
    else 31
  }

  predicate Valid(d: Date) {
    1 <= d.month <= 12 && 1 <= d.day <= DaysIn(d.year, d.month)
  }

  predicate ValidStamp(t: Stamp) {
    Valid(t.date) && t.seconds < DAY
  }

  // ----- days counted from the beginning of year 0 -----

  function DaysBeforeMonth(year: nat, month: nat): nat {
    if month <= 1 then 0 else DaysBeforeMonth(year, month - 1) + DaysIn(year, month - 1)
  }

  function DaysBeforeYear(year: nat): nat {
    if year == 0 then 0 else DaysBeforeYear(year - 1) + DaysBeforeMonth(year - 1, 13)
  }

  function DayNumber(d: Date): nat {
    DaysBeforeYear(d.year) + DaysBeforeMonth(d.year, d.month) + d.day
  }

  function Seconds(t: Stamp): nat {
    DayNumber(t.date) * DAY + t.seconds
  }

  // ----- the two additions -----

  function NextMonth(d: Date): (nat, nat) {
    if d.month == 12 then (d.year + 1, 1) else (d.year, d.month + 1)
  }

  function Min(a: nat, b: nat): nat {
    if a <= b then a else b
  }

  function PlusMonth(d: Date): Date {
    var (y, m) := NextMonth(d);
    Date(y, m, Min(d.day, DaysIn(y, m)))
  }

  function PlusYear(d: Date): Date {
    Date(d.year + 1, d.month, Min(d.day, DaysIn(d.year + 1, d.month)))
  }

  /** Days beyond the end of the month become days of the month after. */
  function Carry(d: Date): Date {
    var over := DaysIn(d.year, d.month);
    if d.day <= over then d
    else
      var (y, m) := NextMonth(d);
      Date(y, m, d.day - over)
  }

  function GoPlusMonth(d: Date): Date {
    var (y, m) := NextMonth(d);
    Carry(Date(y, m, d.day))
  }

  function GoPlusYear(d: Date): Date {
    Carry(Date(d.year + 1, d.month, d.day))
  }

  function NextDay(d: Date): Date {
    Carry(d.(day := d.day + 1))
  }

  function Plus(i: Interval, t: Stamp): Stamp {
    t.(date := if i == EveryMonth then PlusMonth(t.date) else PlusYear(t.date))
  }

  function GoPlus(i: Interval, t: Stamp): Stamp {
    t.(date := if i == EveryMonth then GoPlusMonth(t.date) else GoPlusYear(t.date))
  }

  function PlusTimes(i: Interval, t: Stamp, n: nat): Stamp {
    if n == 0 then t else Plus(i, PlusTimes(i, t, n - 1))
  }

  /** What one more period means, said without computing it: the month is one or twelve later, the time of day is
      the same, and the day is the same unless that month is too short for it; then it is the last of the month. */
  predicate OnePeriodLater(i: Interval, t: Stamp, u: Stamp) {
    && ValidStamp(u) && u.seconds == t.seconds
    && u.date.year * 12 + u.date.month == t.date.year * 12 + t.date.month + (if i == EveryYear then 12 else 1)
    && u.date.day <= t.date.day
    && (u.date.day < t.date.day ==> !Valid(u.date.(day := u.date.day + 1)))
  }

  /** PostgreSQL's addition is the only one that does this. */
  lemma PlusIsOnePeriodLater(i: Interval, t: Stamp, u: Stamp)
    requires ValidStamp(t)
    ensures OnePeriodLater(i, t, u) <==> u == Plus(i, t)
  {
    hide Leap;
    if OnePeriodLater(i, t, u) {
      assert u.date.year == Plus(i, t).date.year && u.date.month == Plus(i, t).date.month;
    }
  }

  // ----- what they do to the day count -----

  /** Leap years before a year: every fourth one, not every hundredth, but every four hundredth. */
  function LeapsBefore(year: nat): int {
    (year + 3) / 4 - (year + 99) / 100 + (year + 399) / 400
  }

  /** Years in closed form. */
  lemma {:induction false} GregorianYears(year: nat)
    ensures DaysBeforeYear(year) == 365 * year + LeapsBefore(year)
  {
    if year > 0 {
      hide LeapsBefore, Leap, DaysBeforeMonth, DaysBeforeYear;
      GregorianYears(year - 1);
      YearLength(year - 1);
      LeapsStep(year - 1);
    } else {
      assert LeapsBefore(0) == 0;
    }
  }

  lemma YearLength(year: nat)
    ensures DaysBeforeYear(year + 1) == DaysBeforeYear(year) + 365 + if Leap(year) then 1 else 0
  {
    MonthsOfYear(year);
    hide Leap, DaysBeforeMonth;
  }

  lemma LeapsStep(n: nat)
    ensures LeapsBefore(n + 1) == LeapsBefore(n) + if Leap(n) then 1 else 0
  {
    Up4(n);
    Up100(n);
    Up400(n);
    LeapDay(n);
  }

  lemma Up4(n: nat)
    ensures (n + 4) / 4 == (n + 3) / 4 + if n % 4 == 0 then 1 else 0
  {
    var q, r := n / 4, n % 4;
    assert n == 4 * q + r;
  }

  lemma Up100(n: nat)
    ensures (n + 100) / 100 == (n + 99) / 100 + if n % 100 == 0 then 1 else 0
  {
    var q, r := n / 100, n % 100;
    assert n == 100 * q + r;
  }

  lemma Up400(n: nat)
    ensures (n + 400) / 400 == (n + 399) / 400 + if n % 400 == 0 then 1 else 0
  {
    var q, r := n / 400, n % 400;
    assert n == 400 * q + r;
  }

  lemma LeapDay(n: nat)
    ensures (if Leap(n) then 1 else 0)
            == (if n % 4 == 0 then 1 else 0) - (if n % 100 == 0 then 1 else 0) + (if n % 400 == 0 then 1 else 0)
  {
    assert n % 400 == 0 ==> n % 100 == 0;
    assert n % 100 == 0 ==> n % 4 == 0;
  }

  lemma MonthsOfYear(year: nat)
    ensures var f := if Leap(year) then 1 else 0;
      && DaysBeforeMonth(year, 2) == 31 && DaysBeforeMonth(year, 3) == 59 + f && DaysBeforeMonth(year, 4) == 90 + f
      && DaysBeforeMonth(year, 5) == 120 + f && DaysBeforeMonth(year, 6) == 151 + f
      && DaysBeforeMonth(year, 7) == 181 + f && DaysBeforeMonth(year, 8) == 212 + f
      && DaysBeforeMonth(year, 9) == 243 + f && DaysBeforeMonth(year, 10) == 273 + f
      && DaysBeforeMonth(year, 11) == 304 + f && DaysBeforeMonth(year, 12) == 334 + f
      && DaysBeforeMonth(year, 13) == 365 + f
  {
    hide Leap;
    assert DaysBeforeMonth(year, 1) == 0;
  }

  /** The first day of the next month follows the last of this one. */
  lemma MonthsMeet(d: Date)
    requires 1 <= d.month <= 12
    ensures var (y, m) := NextMonth(d);
            DaysBeforeYear(y) + DaysBeforeMonth(y, m)
              == DaysBeforeYear(d.year) + DaysBeforeMonth(d.year, d.month) + DaysIn(d.year, d.month)
  {
    hide Leap, DaysIn;
    assert DaysBeforeMonth(d.year, d.month + 1) == DaysBeforeMonth(d.year, d.month) + DaysIn(d.year, d.month);
  }

  lemma CarryKeepsCount(d: Date)
    requires 1 <= d.month <= 12 && 1 <= d.day <= DaysIn(d.year, d.month) + 28
    ensures Valid(Carry(d)) && DayNumber(Carry(d)) == DayNumber(d)
  {
    hide DaysBeforeMonth, DaysBeforeYear, Leap;
    MonthsMeet(d);
  }

  /** The count goes up by one from each day to the next, so it orders dates as the calendar does. */
  lemma CountsDays(d: Date)
    requires Valid(d)
    ensures Valid(NextDay(d)) && DayNumber(NextDay(d)) == DayNumber(d) + 1
    ensures forall s: nat :: Seconds(Stamp(NextDay(d), s)) == Seconds(Stamp(d, s)) + 86400
  {
    hide Leap, DaysIn, DaysBeforeMonth, DaysBeforeYear;
    CarryKeepsCount(d.(day := d.day + 1));
  }

  /** Go's month is always as long as the month it starts in. PostgreSQL's is the same unless the next
      month is too short for the day, and then it is shorter. */
  lemma MonthAdvance(d: Date)
    requires Valid(d)
    ensures Valid(PlusMonth(d)) && Valid(GoPlusMonth(d))
    ensures DayNumber(GoPlusMonth(d)) == DayNumber(d) + DaysIn(d.year, d.month)
    ensures 28 <= DayNumber(PlusMonth(d)) - DayNumber(d) <= DaysIn(d.year, d.month) <= 31
    ensures PlusMonth(d) == GoPlusMonth(d) <==> d.day <= DaysIn(NextMonth(d).0, NextMonth(d).1)
  {
    hide DaysBeforeMonth, DaysBeforeYear, Leap;
    MonthsMeet(d);
    var (y, m) := NextMonth(d);
    CarryKeepsCount(Date(y, m, d.day));
  }

  lemma LeapsApart(year: nat)
    requires Leap(year)
    ensures !Leap(year + 1)
  {
  }

  lemma YearAdvance(d: Date)
    requires Valid(d)
    ensures Valid(PlusYear(d)) && Valid(GoPlusYear(d))
    ensures 365 <= DayNumber(PlusYear(d)) - DayNumber(d) <= 366
    ensures 365 <= DayNumber(GoPlusYear(d)) - DayNumber(d) <= 366
    ensures PlusYear(d) == GoPlusYear(d) <==> !(d.month == 2 && d.day == 29)
  {
    MonthsOfYear(d.year);
    MonthsOfYear(d.year + 1);
    if Leap(d.year) { LeapsApart(d.year); }
    assert DaysBeforeYear(d.year + 1) == DaysBeforeYear(d.year) + DaysBeforeMonth(d.year, 13);
    hide Leap, DaysBeforeMonth, DaysBeforeYear;
    CarryKeepsCount(Date(d.year + 1, d.month, d.day));
    assert d.month in {1, 2, 3, 4, 5, 6, 7, 8, 9, 10, 11, 12};
  }

  lemma PlusAdvances(i: Interval, t: Stamp)
    requires ValidStamp(t)
    ensures ValidStamp(Plus(i, t)) && ValidStamp(GoPlus(i, t))
    ensures Seconds(t) + 28 * DAY <= Seconds(Plus(i, t)) <= Seconds(t) + 366 * DAY
    ensures Seconds(t) + 28 * DAY <= Seconds(GoPlus(i, t)) <= Seconds(t) + 366 * DAY
  {
    MonthAdvance(t.date);
    YearAdvance(t.date);
    hide DayNumber, PlusMonth, PlusYear, GoPlusMonth, GoPlusYear, Valid;
    assert 28 <= DaysIn(t.date.year, t.date.month);
  }

  /** n periods are at least 28 days each. */
  lemma {:induction false} PlusTimesAdvances(i: Interval, t: Stamp, n: nat)
    requires ValidStamp(t)
    ensures ValidStamp(PlusTimes(i, t, n))
    ensures Seconds(t) + n * 28 * DAY <= Seconds(PlusTimes(i, t, n)) <= Seconds(t) + n * 366 * DAY
  {
    if n > 0 {
      PlusTimesAdvances(i, t, n - 1);
      PlusAdvances(i, PlusTimes(i, t, n - 1));
    }
  }

  // ----- the billing day -----

  function MonthIndex(d: Date): nat
    requires d.month >= 1
  {
    d.year * 12 + d.month - 1
  }

  lemma {:induction false} MonthAfter(t: Stamp, n: nat)
    requires Valid(t.date)
    ensures var u := PlusTimes(EveryMonth, t, n).date; Valid(u) && MonthIndex(u) == MonthIndex(t.date) + n
    ensures PlusTimes(EveryMonth, t, n).seconds == t.seconds
  {
    if n > 0 {
      MonthAfter(t, n - 1);
      MonthAdvance(PlusTimes(EveryMonth, t, n - 1).date);
    }
  }

  /** n yearly renewals: the same day and time n years on, except that a 29 February becomes a 28th for good. */
  lemma {:induction false} YearAfter(t: Stamp, n: nat)
    requires Valid(t.date)
    ensures var u := PlusTimes(EveryYear, t, n);
      && Valid(u.date) && u.seconds == t.seconds && u.date.year == t.date.year + n && u.date.month == t.date.month
      && u.date.day == if n > 0 && t.date.month == 2 && t.date.day == 29 then 28 else t.date.day
  {
    if n > 0 {
      YearAfter(t, n - 1);
      var u := PlusTimes(EveryYear, t, n - 1);
      if Leap(u.date.year) { LeapsApart(u.date.year); }
      hide Leap;
    }
  }

  /** The first year of a subscription, as Go adds it: only a 29 February moves, to 1 March. */
  lemma GoYear(t: Stamp)
    requires Valid(t.date)
    ensures var u := GoPlus(EveryYear, t);
      && Valid(u.date) && u.seconds == t.seconds && u.date.year == t.date.year + 1
      && (u.date.month, u.date.day)
         == if t.date.month == 2 && t.date.day == 29 then (3, 1) else (t.date.month, t.date.day)
  {
    if Leap(t.date.year) { LeapsApart(t.date.year); }
    hide Leap;
  }

  /** The first month, as Go adds it, of a subscription started on the 28th or earlier. */
  lemma GoMonth(t: Stamp)
    requires Valid(t.date) && t.date.day <= 28
    ensures var u := GoPlus(EveryMonth, t);
      && Valid(u.date) && u.seconds == t.seconds && u.date.day == t.date.day
      && MonthIndex(u.date) == MonthIndex(t.date) + 1
  {
  }

  /** A billing day is never regained: it only moves to an earlier day of the month, never before the 28th. */
  lemma {:induction false} BillingDayOnlyShrinks(i: Interval, t: Stamp, n: nat)
    requires Valid(t.date)
    ensures Valid(PlusTimes(i, t, n).date) && Min(t.date.day, 28) <= PlusTimes(i, t, n).date.day <= t.date.day
  {
    hide Leap;
    if n > 0 {
      BillingDayOnlyShrinks(i, t, n - 1);
    }
  }

  /** Some month reached from any date is a February of 28 days. */
  lemma ShortFebruary(t: Stamp) returns (n: nat)
    requires Valid(t.date)
    ensures var u := PlusTimes(EveryMonth, t, n).date; u.month == 2 && !Leap(u.year) && Valid(u)
  {
    n := if t.date.month <= 2 then 2 - t.date.month else 14 - t.date.month;
    MonthAfter(t, n);
    if Leap(PlusTimes(EveryMonth, t, n).date.year) {
      LeapsApart(PlusTimes(EveryMonth, t, n).date.year);
      n := n + 12;
      MonthAfter(t, n);
    }
  }

  /** A monthly subscription keeps its billing day through every renewal exactly when it is the 28th or
      earlier. */
  lemma BillingDayKept(t: Stamp)
    requires Valid(t.date)
    ensures (forall n: nat :: PlusTimes(EveryMonth, t, n).date.day == t.date.day) <==> t.date.day <= 28
  {
    if t.date.day <= 28 {
      forall n: nat
        ensures PlusTimes(EveryMonth, t, n).date.day == t.date.day
      {
        BillingDayOnlyShrinks(EveryMonth, t, n);
      }
    } else {
      var n := ShortFebruary(t);
      assert PlusTimes(EveryMonth, t, n).date.day <= 28;
    }
  }
}
