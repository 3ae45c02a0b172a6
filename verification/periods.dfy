/** What the periods of a subscription look like on the calendar, over whole runs: how long each one is, and on which
    date a subscription stands after so many paid invoices. */
module Periods {
  import opened Schema
  import opened Calendar
  import opened Billing

  /** A period from one stamp to another, in days; the time of day does not move. */
  predicate Lasts(p: Period, least: nat, most: nat) {
    && ValidStamp(p.start) && ValidStamp(p.end) && p.end.seconds == p.start.seconds
    && least <= DayNumber(p.end.date) - DayNumber(p.start.date) <= most
  }

  lemma AMonthIsLong(d: Date)
    ensures 28 <= DaysIn(d.year, d.month) <= 31
  {
  }

  lemma GoLasts(i: Interval, t: Stamp)
    requires ValidStamp(t)
    ensures if i == EveryYear then Lasts(Period(t, GoPlus(i, t)), 365, 366) else Lasts(Period(t, GoPlus(i, t)), 28, 31)
  {
    hide Seconds, DayNumber, Valid, DaysIn, GoPlusMonth, GoPlusYear;
    PlusAdvances(i, t);
    if i == EveryYear {
      YearAdvance(t.date);
    } else {
      MonthAdvance(t.date);
      AMonthIsLong(t.date);
    }
  }

  lemma PlusLasts(i: Interval, t: Stamp)
    requires ValidStamp(t)
    ensures if i == EveryYear then Lasts(Period(t, Plus(i, t)), 365, 366) else Lasts(Period(t, Plus(i, t)), 28, 31)
  {
    hide Seconds, DayNumber, Valid, DaysIn, PlusMonth, PlusYear;
    PlusAdvances(i, t);
    if i == EveryYear {
      YearAdvance(t.date);
    } else {
      MonthAdvance(t.date);
    }
  }

  /** In every run each period of a yearly subscription is 365 or 366 days long, and each of a monthly one 28 to 31,
      the first one included. */
  lemma PeriodLengths(s: State, acts: seq<Action>, k: SubId, n: nat)
    requires Initial(s) && k in Exec(s, acts).subs && k in Exec(s, acts).history && n < |Exec(s, acts).history[k]|
    ensures var t := Exec(s, acts);
      if t.subs[k].interval == EveryYear then Lasts(t.history[k][n], 365, 366) else Lasts(t.history[k][n], 28, 31)
  {
    PeriodsFollowPaidInvoices(s, acts, k);
    var t := Exec(s, acts);
    var i, h := t.subs[k].interval, t.history[k];
    hide Exec, Lasts, Plus, GoPlus, ValidStamp;
    if n == 0 {
      GoLasts(i, h[0].start);
    } else {
      ChainPrefix(i, h, n);
      PlusLasts(i, h[n - 1].end);
    }
  }

  lemma ChainPrefix(i: Interval, h: seq<Period>, n: nat)
    requires Chain(i, h) && 0 < n < |h|
    ensures ValidStamp(h[n - 1].end) && h[n] == Period(h[n - 1].end, Plus(i, h[n - 1].end))
  {
    hide Plus, GoPlus, ValidStamp;
    var front := h[..n];
    assert Chain(i, front);
    ChainEnd(i, front);
    assert front[|front| - 1] == h[n - 1];
    assert h[n].end == PlusTimes(i, h[0].end, n) && h[n - 1].end == PlusTimes(i, h[0].end, n - 1);
  }

  /** A yearly subscription started on a date ends, after n paid invoices, on that date n + 1 years on; started on a
      29 February, on 1 March. */
  lemma YearlyEnd(s: State, acts: seq<Action>, k: SubId)
    requires Initial(s) && k in Exec(s, acts).subs && Exec(s, acts).subs[k].interval == EveryYear
    ensures var t := Exec(s, acts);
      && k in t.history && |t.history[k]| >= 1
      && var from, to := t.history[k][0].start, t.subs[k].end;
      && to.seconds == from.seconds && to.date.year == from.date.year + 1 + |PaidFor(t.invoices, k)|
      && (to.date.month, to.date.day)
         == if from.date.month == 2 && from.date.day == 29 then (3, 1) else (from.date.month, from.date.day)
  {
    PeriodsFollowPaidInvoices(s, acts, k);
    var t := Exec(s, acts);
    hide Exec, Plus, GoPlus, PaidFor;
    GoYear(t.history[k][0].start);
    YearAfter(t.history[k][0].end, |PaidFor(t.invoices, k)|);
  }

  /** A monthly one started on the 28th or earlier ends on that day of the month, n + 1 months on. */
  lemma MonthlyEnd(s: State, acts: seq<Action>, k: SubId)
    requires Initial(s) && k in Exec(s, acts).subs && Exec(s, acts).subs[k].interval == EveryMonth
    ensures var t := Exec(s, acts);
      && k in t.history && |t.history[k]| >= 1
      && var from, to := t.history[k][0].start, t.subs[k].end;
      from.date.day <= 28 ==>
        && to.seconds == from.seconds && to.date.day == from.date.day
        && to.date.year * 12 + to.date.month
           == from.date.year * 12 + from.date.month + 1 + |PaidFor(t.invoices, k)|
  {
    PeriodsFollowPaidInvoices(s, acts, k);
    var t := Exec(s, acts);
    hide Exec, Plus, GoPlus, PaidFor;
    var from, n := t.history[k][0].start, |PaidFor(t.invoices, k)|;
    if from.date.day <= 28 {
      GoMonth(from);
      MonthAfter(t.history[k][0].end, n);
      BillingDayKept(t.history[k][0].end);
    }
  }
}
