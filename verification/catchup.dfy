/** Catching up: how many ticks of the billing worker, at a fixed time and without faults, leave nothing due. */
module CatchUp {
  import opened Schema
  import opened Calendar
  import opened Sums
  import opened Billing
  import opened Scripts
  import opened Worker

  type Subs = map<SubId, Subscription>

  ghost predicate Stamped(subs: Subs) {
    forall k :: k in subs ==> ValidStamp(subs[k].end)
  }

  ghost function DueIn(subs: Subs, now: nat): set<SubId> {
    set k | k in subs && Due(subs[k], now)
  }

  function RenewAll(subs: Subs, chosen: set<SubId>): Subs {
    map k | k in subs :: if k in chosen then Renewed(subs[k]) else subs[k]
  }

  /** A tick in which everything goes through: some hundred of the due subscriptions are renewed, or all. */
  ghost predicate FineTick(subs: Subs, now: nat, after: Subs) {
    exists chosen ::
      && chosen <= DueIn(subs, now) && |chosen| <= BATCH
      && (chosen == DueIn(subs, now) || |chosen| == BATCH)
      && after == RenewAll(subs, chosen)
  }

  // ----- a tick of the worker is one -----

  /** The first n charges of a batch, all going through. */
  lemma {:induction false} BatchRenews(s: State, w: WorkerId, rows: seq<SubId>, invs: seq<InvoiceId>, xs: seq<Weather>,
                                       n: nat)
    requires Inv(s) && n <= |rows| && n <= |invs| && n <= |xs|
    requires forall i :: 0 <= i < |rows| ==> Picked(s, w, rows[i]) && rows[i] in s.subs
    requires forall i, j :: 0 <= i < j < |rows| ==> rows[i] != rows[j]
    requires Distinct(invs, xs) && Unused(invs, xs, 0, s.invoices, s.payments)
    requires forall i :: 0 <= i < |xs| ==> GoesThrough(xs[i])
    ensures var t := Exec(s, BatchScript(w, rows, invs, xs, n));
      && Inv(t) && t.subs == RenewAll(s.subs, Elems(rows[..n])) && Unused(invs, xs, n, t.invoices, t.payments)
      && forall i :: n <= i < |rows| ==> Picked(t, w, rows[i])
  {
    if n == 0 {
      assert rows[..0] == [];
    } else {
      BatchRenews(s, w, rows, invs, xs, n - 1);
      BatchStep(s, w, rows, invs, xs, n);
    }
  }

  lemma BatchStep(s: State, w: WorkerId, rows: seq<SubId>, invs: seq<InvoiceId>, xs: seq<Weather>, n: nat)
    requires 0 < n <= |rows| && n <= |invs| && n <= |xs|
    requires forall i :: 0 <= i < |rows| ==> rows[i] in s.subs
    requires forall i, j :: 0 <= i < j < |rows| ==> rows[i] != rows[j]
    requires Distinct(invs, xs) && forall i :: 0 <= i < |xs| ==> GoesThrough(xs[i])
    requires var t := Exec(s, BatchScript(w, rows, invs, xs, n - 1));
      && Inv(t) && t.subs == RenewAll(s.subs, Elems(rows[..n - 1])) && Unused(invs, xs, n - 1, t.invoices, t.payments)
      && forall i :: n - 1 <= i < |rows| ==> Picked(t, w, rows[i])
    ensures var t := Exec(s, BatchScript(w, rows, invs, xs, n));
      && Inv(t) && t.subs == RenewAll(s.subs, Elems(rows[..n])) && Unused(invs, xs, n, t.invoices, t.payments)
      && forall i :: n <= i < |rows| ==> Picked(t, w, rows[i])
  {
    var before := BatchScript(w, rows, invs, xs, n - 1);
    LastScript(w, rows, invs, xs, n);
    hide Exec, Inv, Renewed, ChargeScript, BatchScript, RenewAll, Unused, Distinct, GoesThrough;
    var t1 := Exec(s, before);
    ExecAppend(s, before, ChargeScript(w, rows[n - 1], invs[n - 1], xs[n - 1]));
    NextUnused(invs, xs, n, t1.invoices, t1.payments);
    LeftToRenew(s.subs, rows, n);
    OneRow(t1, w, rows, n, invs[n - 1], xs[n - 1]);
    RenewOneMore(s.subs, rows, n);
    StillUnused(t1, Exec(s, BatchScript(w, rows, invs, xs, n)), invs, xs, n);
  }

  lemma LastScript(w: WorkerId, rows: seq<SubId>, invs: seq<InvoiceId>, xs: seq<Weather>, n: nat)
    requires 0 < n <= |rows| && n <= |invs| && n <= |xs| && forall i :: 0 <= i < |xs| ==> GoesThrough(xs[i])
    ensures BatchScript(w, rows, invs, xs, n)
         == BatchScript(w, rows, invs, xs, n - 1) + ChargeScript(w, rows[n - 1], invs[n - 1], xs[n - 1])
    ensures GoesThrough(xs[n - 1])
  {
    hide ChargeScript;
  }

  lemma NextUnused(invs: seq<InvoiceId>, xs: seq<Weather>, n: nat, invoices: map<InvoiceId, Invoice>,
                   payments: map<PaymentId, Taken>)
    requires 0 < n <= |invs| && n <= |xs| && Unused(invs, xs, n - 1, invoices, payments) && GoesThrough(xs[n - 1])
    ensures invs[n - 1] !in invoices && xs[n - 1].charged.Some? && xs[n - 1].charged.value !in payments
  {
  }

  lemma LeftToRenew(subs: Subs, rows: seq<SubId>, n: nat)
    requires 0 < n <= |rows| && rows[n - 1] in subs
    ensures rows[n - 1] in RenewAll(subs, Elems(rows[..n - 1]))
  {
  }

  lemma StillUnused(s: State, t: State, invs: seq<InvoiceId>, xs: seq<Weather>, n: nat)
    requires 0 < n <= |invs| && n <= |xs| && Distinct(invs, xs) && xs[n - 1].charged.Some?
    requires Unused(invs, xs, n - 1, s.invoices, s.payments)
    requires t.invoices.Keys == s.invoices.Keys + {invs[n - 1]}
             && t.payments.Keys == s.payments.Keys + {xs[n - 1].charged.value}
    ensures Unused(invs, xs, n, t.invoices, t.payments)
  {
  }

  /** One row of the batch. */
  lemma OneRow(s: State, w: WorkerId, rows: seq<SubId>, n: nat, inv: InvoiceId, x: Weather)
    requires 0 < n <= |rows| && Inv(s) && rows[n - 1] in s.subs && inv !in s.invoices
    requires GoesThrough(x) && x.charged.Some? && x.charged.value !in s.payments
    requires forall i :: n - 1 <= i < |rows| ==> Picked(s, w, rows[i])
    requires forall i, j :: 0 <= i < j < |rows| ==> rows[i] != rows[j]
    ensures var t := Exec(s, ChargeScript(w, rows[n - 1], inv, x));
      && Inv(t) && t.subs == s.subs[rows[n - 1] := Renewed(s.subs[rows[n - 1]])]
      && t.invoices.Keys == s.invoices.Keys + {inv} && t.payments.Keys == s.payments.Keys + {x.charged.value}
      && forall i :: n <= i < |rows| ==> Picked(t, w, rows[i])
  {
    hide Exec, Inv, Renewed, ChargeScript;
    FirstRenews(s, w, w + 1, rows[n - 1], inv, x);
    ChargeRenews(s, w, rows[n - 1], inv, x);
    PicksLeft(s, w, rows[n - 1], inv, x);
    hide GoesThrough;
    assert forall i :: n <= i < |rows| ==> Picked(s, w, rows[i]) && rows[i] != rows[n - 1];
  }

  lemma RenewOneMore(subs: Subs, rows: seq<SubId>, n: nat)
    requires 0 < n <= |rows| && rows[n - 1] in subs && forall i, j :: 0 <= i < j < |rows| ==> rows[i] != rows[j]
    ensures var before := RenewAll(subs, Elems(rows[..n - 1]));
      before[rows[n - 1] := Renewed(before[rows[n - 1]])] == RenewAll(subs, Elems(rows[..n]))
  {
    hide Renewed;
    assert Elems(rows[..n]) == Elems(rows[..n - 1]) + {rows[n - 1]};
  }

  /** What BillingWorker.ProcessDueSubscriptions amounts to when every charge goes through. */
  lemma TickIsFine(s: State, w: WorkerId, rows: seq<SubId>, invs: seq<InvoiceId>, xs: seq<Weather>)
    requires Inv(s) && Selectable(s, Elems(rows)) && forall i, j :: 0 <= i < j < |rows| ==> rows[i] != rows[j]
    requires |invs| >= BATCH && |xs| >= BATCH && |rows| <= BATCH && Distinct(invs, xs)
             && Unused(invs, xs, 0, s.invoices, s.payments)
    requires forall i :: 0 <= i < |xs| ==> GoesThrough(xs[i])
    ensures FineTick(s.subs, s.now, Exec(Apply(s, Select(w, Elems(rows))), BatchScript(w, rows, invs, xs, |rows|)).subs)
  {
    hide Inv, Exec, BatchScript, GoesThrough, Unused, Distinct, Due, RenewAll, Elems;
    SelectAll(s, w, rows);
    BatchRenews(Apply(s, Select(w, Elems(rows))), w, rows, invs, xs, |rows|);
    assert rows[..|rows|] == rows;
    assert DueIn(s.subs, s.now) == DueSubs(s);
  }

  // ----- how many ticks -----

  /** How many renewals a subscription needs before it is not due any more. */
  function Backlog(sub: Subscription, now: nat): nat
    requires ValidStamp(sub.end)
    decreases if Due(sub, now) then now + 1 - Seconds(sub.end) else 0
  {
    if !Due(sub, now) then 0
    else
      PlusAdvances(sub.interval, sub.end);
      1 + Backlog(Renewed(sub), now)
  }

  predicate DueAfter(sub: Subscription, now: nat, n: nat) {
    Due(sub.(end := PlusTimes(sub.interval, sub.end, n)), now)
  }

  /** A subscription that is still due after n renewals was at least 28 n days behind. */
  lemma BehindByPeriods(sub: Subscription, now: nat, n: nat)
    requires ValidStamp(sub.end) && DueAfter(sub, now, n)
    ensures Seconds(sub.end) <= now && n <= (now - Seconds(sub.end)) / (28 * 86400)
  {
    PlusTimesAdvances(sub.interval, sub.end, n);
    hide Seconds, PlusTimes;
    assert n * (28 * DAY) <= now - Seconds(sub.end);
  }

  lemma {:induction false} FirstOfMany(i: Interval, t: Stamp, n: nat)
    ensures PlusTimes(i, Plus(i, t), n) == PlusTimes(i, t, n + 1)
  {
    hide Plus;
    if n > 0 {
      FirstOfMany(i, t, n - 1);
    }
  }

  /** The backlog is the first number of renewals after which the subscription is not due, and it is at most one
      more than the 28-day spans the subscription is behind. */
  lemma {:induction false} CatchUpEnds(sub: Subscription, now: nat)
    requires ValidStamp(sub.end) && Due(sub, now)
    ensures !DueAfter(sub, now, Backlog(sub, now)) && forall i: nat :: i < Backlog(sub, now) ==> DueAfter(sub, now, i)
    ensures 1 <= Backlog(sub, now) <= (now - Seconds(sub.end)) / (28 * 86400) + 1
    decreases now - Seconds(sub.end)
  {
    hide Seconds, Plus, ValidStamp;
    PlusAdvances(sub.interval, sub.end);
    var n := Backlog(sub, now);
    if Due(Renewed(sub), now) { CatchUpEnds(Renewed(sub), now); }
    forall i: nat | i <= n ensures DueAfter(sub, now, i) <==> i == 0 || DueAfter(Renewed(sub), now, i - 1) {
      if i > 0 { FirstOfMany(sub.interval, sub.end, i - 1); }
    }
    BehindByPeriods(sub, now, n - 1);
  }

  ghost function BacklogOf(subs: Subs, now: nat, k: SubId): nat {
    if k in subs && ValidStamp(subs[k].end) then Backlog(subs[k], now) else 0
  }

  /** All the renewals that are behind. */
  ghost function Work(subs: Subs, now: nat): int {
    Sum(subs.Keys, (k: SubId) => BacklogOf(subs, now, k))
  }

  lemma {:induction false} SumLess(s: set<SubId>, f: SubId -> int, g: SubId -> int, part: set<SubId>)
    requires part <= s && forall k :: k in s ==> g(k) == f(k) - if k in part then 1 else 0
    ensures Sum(s, g) == Sum(s, f) - |part|
    decreases |s|
  {
    if s != {} {
      var k :| k in s;
      SumPick(s, f, k);
      SumPick(s, g, k);
      SumLess(s - {k}, f, g, part - {k});
    }
  }

  lemma {:induction false} SumNotNegative(s: set<SubId>, f: SubId -> int)
    requires forall k :: k in s ==> f(k) >= 0
    ensures Sum(s, f) >= 0
    decreases |s|
  {
    if s != {} {
      var k :| k in s;
      SumPick(s, f, k);
      SumNotNegative(s - {k}, f);
    }
  }

  /** A renewed subscription is one behind less. */
  lemma OneLess(subs: Subs, now: nat, chosen: set<SubId>, k: SubId)
    requires Stamped(subs) && chosen <= DueIn(subs, now) && k in subs
    ensures BacklogOf(RenewAll(subs, chosen), now, k) == BacklogOf(subs, now, k) - if k in chosen then 1 else 0
    ensures ValidStamp(RenewAll(subs, chosen)[k].end)
  {
    hide Seconds, Plus, ValidStamp;
    if k in chosen {
      assert k in DueIn(subs, now);
      PlusAdvances(subs[k].interval, subs[k].end);
    }
  }

  lemma TickWork(subs: Subs, now: nat, chosen: set<SubId>)
    requires Stamped(subs) && chosen <= DueIn(subs, now)
    ensures Stamped(RenewAll(subs, chosen)) && Work(RenewAll(subs, chosen), now) == Work(subs, now) - |chosen|
  {
    hide Due, Renewed, BacklogOf, ValidStamp;
    var after := RenewAll(subs, chosen);
    forall k | k in subs
      ensures BacklogOf(after, now, k) == (BacklogOf(subs, now, k) - if k in chosen then 1 else 0)
              && ValidStamp(after[k].end)
    {
      OneLess(subs, now, chosen, k);
    }
    assert after.Keys == subs.Keys;
    var f, g := (k: SubId) => BacklogOf(subs, now, k), (k: SubId) => BacklogOf(after, now, k);
    SumLess(subs.Keys, f, g, chosen);
    SumCongruent(subs.Keys, f, (k: SubId) => BacklogOf(subs, now, k));
    SumCongruent(after.Keys, g, (k: SubId) => BacklogOf(after, now, k));
  }

  ghost predicate BehindAtMost(subs: Subs, now: nat, b: nat) {
    forall k :: k in subs ==> BacklogOf(subs, now, k) <= b
  }

  /** One fine tick: either a full batch of work is done, or every backlog gets shorter. */
  lemma TickProgress(subs: Subs, now: nat, after: Subs, b: nat)
    requires Stamped(subs) && FineTick(subs, now, after) && BehindAtMost(subs, now, b)
    ensures Stamped(after)
    ensures (Work(after, now) == Work(subs, now) - 100 && BehindAtMost(after, now, b))
            || (Work(after, now) <= Work(subs, now) && BehindAtMost(after, now, if b == 0 then 0 else b - 1))
  {
    var chosen :| chosen <= DueIn(subs, now) && |chosen| <= BATCH && (chosen == DueIn(subs, now) || |chosen| == BATCH)
                  && after == RenewAll(subs, chosen);
    TickWork(subs, now, chosen);
    forall k | k in subs ensures BacklogOf(after, now, k) == BacklogOf(subs, now, k) - if k in chosen then 1 else 0 {
      OneLess(subs, now, chosen, k);
    }
    hide Due, Renewed, Work;
    if chosen == DueIn(subs, now) {
      forall k | k in after ensures BacklogOf(after, now, k) <= if b == 0 then 0 else b - 1 {
        if k !in chosen { NotBehind(subs, now, k); }
      }
    }
  }

  lemma NotBehind(subs: Subs, now: nat, k: SubId)
    requires k in subs && k !in DueIn(subs, now)
    ensures BacklogOf(subs, now, k) == 0
  {
  }

  lemma NothingBehind(subs: Subs, now: nat)
    requires Stamped(subs) && BehindAtMost(subs, now, 0)
    ensures DueIn(subs, now) == {}
  {
    forall k | k in subs ensures !Due(subs[k], now) { assert BacklogOf(subs, now, k) == Backlog(subs[k], now); }
  }

  lemma WorkNotNegative(subs: Subs, now: nat)
    ensures Work(subs, now) >= 0
  {
    SumNotNegative(subs.Keys, (k: SubId) => BacklogOf(subs, now, k));
  }

  /** However the batches are chosen: with `Work` renewals behind in all and no subscription behind by more than b,
      Work / 100 + b fine ticks leave nothing due. */
  lemma {:induction false} TicksCatchUp(ts: seq<Subs>, now: nat, b: nat)
    requires ts != [] && Stamped(ts[0]) && BehindAtMost(ts[0], now, b)
    requires forall i :: 0 <= i < |ts| - 1 ==> FineTick(ts[i], now, ts[i + 1])
    requires |ts| - 1 >= Work(ts[0], now) / 100 + b
    ensures DueIn(ts[|ts| - 1], now) == {}
    decreases |ts|
  {
    WorkNotNegative(ts[0], now);
    hide FineTick, Work, BehindAtMost, DueIn, Stamped;
    if |ts| == 1 {
      NothingBehind(ts[0], now);
    } else {
      assert FineTick(ts[0], now, ts[1]);
      TickProgress(ts[0], now, ts[1], b);
      var rest := ts[1..];
      assert forall i :: 0 <= i < |rest| ==> rest[i] == ts[i + 1];
      if BehindAtMost(ts[1], now, if b == 0 then 0 else b - 1) && Work(ts[1], now) <= Work(ts[0], now) {
        if b == 0 {
          WorkShrinksTo(ts[0], now);
          WorkShrinksTo(ts[1], now);
        }
        TicksCatchUp(rest, now, if b == 0 then 0 else b - 1);
      } else {
        TicksCatchUp(rest, now, b);
      }
    }
  }

  lemma WorkShrinksTo(subs: Subs, now: nat)
    requires BehindAtMost(subs, now, 0)
    ensures Work(subs, now) == 0
  {
    SumZero(subs.Keys, (k: SubId) => BacklogOf(subs, now, k));
  }
}
