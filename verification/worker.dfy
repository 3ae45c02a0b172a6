/** The billing worker as it runs: a batch of due subscriptions, charged one after the other. Whatever
    fails, what it does to the tables is a run of the machine of module Billing, written out as scripts. */
module Worker {
  import opened Schema
  import opened Calendar
  import opened Billing
  import opened Scripts

  /** The scripts of the first n rows, up to a panic. */
  function BatchScript(w: WorkerId, rows: seq<SubId>, invs: seq<InvoiceId>, xs: seq<Weather>, n: nat): seq<Action>
    requires n <= |rows| && n <= |invs| && n <= |xs|
  {
    if n == 0 then []
    else
      BatchScript(w, rows, invs, xs, n - 1) +
      if exists i :: 0 <= i < n - 1 && Panics(xs[i]) then [] else ChargeScript(w, rows[n - 1], invs[n - 1], xs[n - 1])
  }

  /** Nothing runs after a panic. */
  lemma {:induction false} AfterPanic(w: WorkerId, rows: seq<SubId>, invs: seq<InvoiceId>, xs: seq<Weather>, n: nat,
                                      m: nat)
    requires 0 < n <= m && m <= |rows| && m <= |invs| && m <= |xs| && Panics(xs[n - 1])
    ensures BatchScript(w, rows, invs, xs, m) == BatchScript(w, rows, invs, xs, n)
  {
    if m > n {
      AfterPanic(w, rows, invs, xs, n, m - 1);
    }
  }

  /** Ids that are new to the tables and to each other. */
  ghost predicate Unused(invs: seq<InvoiceId>, xs: seq<Weather>, from: nat, invoices: map<InvoiceId, Invoice>,
                         payments: map<PaymentId, Taken>) {
    && (forall i :: from <= i < |invs| ==> invs[i] !in invoices)
    && (forall i :: from <= i < |xs| && xs[i].charged.Some? ==> xs[i].charged.value !in payments)
  }

  ghost predicate Distinct(invs: seq<InvoiceId>, xs: seq<Weather>) {
    && (forall i, j :: 0 <= i < j < |invs| ==> invs[i] != invs[j])
    && (forall i, j :: 0 <= i < j < |xs| && xs[i].charged.Some? && xs[j].charged.Some? ==>
        xs[i].charged != xs[j].charged)
  }

  function Elems(rows: seq<SubId>): set<SubId> {
    set k | k in rows
  }

  /** One more row is taken from the due ones. */
  lemma TakeRow(rows: seq<SubId>, due: set<SubId>, left: set<SubId>, k: SubId)
    requires Elems(rows) == due - left && left <= due && k in left
    ensures Elems(rows + [k]) == due - (left - {k}) && k !in rows && |due - (left - {k})| == |due - left| + 1
  {
    assert k !in Elems(rows);
    assert Elems(rows + [k]) == Elems(rows) + {k};
    assert due - (left - {k}) == (due - left) + {k};
  }

  lemma SelectAll(s: State, w: WorkerId, rows: seq<SubId>)
    requires Inv(s) && Selectable(s, Elems(rows)) && forall i, j :: 0 <= i < j < |rows| ==> rows[i] != rows[j]
    ensures var t := Apply(s, Select(w, Elems(rows)));
      && t == s.(picked := s.picked[w := Elems(rows)]) && Inv(t) && |rows| <= BATCH
      && (forall i :: 0 <= i < |rows| ==> Picked(t, w, rows[i]) && rows[i] in s.subs)
  {
    Step(s, Select(w, Elems(rows)));
    hide Inv;
    CountElems(rows);
    forall i | 0 <= i < |rows| ensures rows[i] in s.subs { assert rows[i] in Elems(rows); }
  }

  lemma {:induction false} CountElems(rows: seq<SubId>)
    requires forall i, j :: 0 <= i < j < |rows| ==> rows[i] != rows[j]
    ensures |Elems(rows)| == |rows|
  {
    if rows != [] {
      var front := rows[..|rows| - 1];
      CountElems(front);
      assert Elems(rows) == Elems(front) + {rows[|rows| - 1]};
    }
  }

  lemma OneRowMore(s: State, w: WorkerId, rows: seq<SubId>, invs: seq<InvoiceId>, xs: seq<Weather>, n: nat)
    requires n < |rows| <= |invs| && |rows| <= |xs| && forall i :: 0 <= i < n ==> !Panics(xs[i])
    ensures Exec(s, BatchScript(w, rows, invs, xs, n + 1))
            == Exec(Exec(s, BatchScript(w, rows, invs, xs, n)), ChargeScript(w, rows[n], invs[n], xs[n]))
  {
    hide ChargeScript, Exec, Panics;
    ExecAppend(s, BatchScript(w, rows, invs, xs, n), ChargeScript(w, rows[n], invs[n], xs[n]));
  }

  lemma StillUnused(invs: seq<InvoiceId>, xs: seq<Weather>, n: nat, before: map<InvoiceId, Invoice>,
                    invoices: map<InvoiceId, Invoice>, taken: map<PaymentId, Taken>, payments: map<PaymentId, Taken>)
    requires n < |invs| && n < |xs| && Distinct(invs, xs) && Unused(invs, xs, n, before, taken)
    requires invoices.Keys <= before.Keys + {invs[n]}
    requires payments.Keys <= taken.Keys + if xs[n].charged.Some? then {xs[n].charged.value} else {}
    ensures Unused(invs, xs, n + 1, invoices, payments)
  {
  }

  lemma UnusedAt(invs: seq<InvoiceId>, xs: seq<Weather>, n: nat, invoices: map<InvoiceId, Invoice>,
                 payments: map<PaymentId, Taken>)
    requires n < |invs| && n < |xs| && Unused(invs, xs, n, invoices, payments)
    ensures invs[n] !in invoices && (xs[n].charged.Some? ==> xs[n].charged.value !in payments)
  {
  }

  class BillingWorker {
    const w: WorkerId
    var now: nat
    var subs: map<SubId, Subscription>
    var invoices: map<InvoiceId, Invoice>
    var payments: map<PaymentId, Taken>
    ghost var model: State

    ghost predicate Valid()
      reads this
    {
      model.now == now && model.subs == subs && model.invoices == invoices && model.payments == payments && Inv(model)
    }

    constructor (w: WorkerId, ghost s: State, now: nat, subs: map<SubId, Subscription>,
                 invoices: map<InvoiceId, Invoice>,
                 payments: map<PaymentId, Taken>)
      requires Inv(s) && s.now == now && s.subs == subs && s.invoices == invoices && s.payments == payments
      ensures Valid() && model == s && this.w == w
    {
      this.w, this.now, this.subs, this.invoices, this.payments, model := w, now, subs, invoices, payments, s;
    }

    /** In these rows are exactly due subscriptions, and all of them if they are fewer than a hundred. */
    lemma DueRows(rows: seq<SubId>)
      requires Valid() && Selectable(model, Elems(rows)) && forall i, j :: 0 <= i < j < |rows| ==> rows[i] != rows[j]
      ensures |rows| <= 100
      ensures forall k :: k in rows ==> k in subs && subs[k].status == Active && Seconds(subs[k].end) <= now
      ensures |rows| < 100 ==>
                forall k :: k in subs && subs[k].status == Active && Seconds(subs[k].end) <= now ==> k in rows
    {
      hide Inv, Seconds;
      CountElems(rows);
      assert forall k :: k in rows <==> k in Elems(rows);
    }

    /** At most 100 of the due subscriptions, in no particular order. */
    method QueryDue() returns (rows: seq<SubId>)
      requires Valid()
      ensures forall i, j :: 0 <= i < j < |rows| ==> rows[i] != rows[j]
      ensures Selectable(model, Elems(rows))
      ensures |rows| <= 100
      ensures forall k :: k in rows ==> k in subs && subs[k].status == Active && Seconds(subs[k].end) <= now
      ensures |rows| < 100 ==>
                forall k :: k in subs && subs[k].status == Active && Seconds(subs[k].end) <= now ==> k in rows
    {
      hide Inv, Due;
      rows := [];
      var due := set k | k in subs && Due(subs[k], now);
      assert due == DueSubs(model);
      var left := due;
      assert Elems(rows) == {} == due - left;
      hide Elems, DueSubs;
      while left != {} && |rows| < BATCH
        invariant left <= due && Elems(rows) == due - left
        invariant |rows| == |due - left| <= BATCH
        invariant forall i, j :: 0 <= i < j < |rows| ==> rows[i] != rows[j]
        decreases left
      {
        var k :| k in left;
        TakeRow(rows, due, left, k);
        rows := rows + [k];
        left := left - {k};
      }
      if left == {} { assert due - left == due; }
      DueRows(rows);
    }

    /** Draft an invoice, ask the gateway, then renew or give up. */
    method ChargeSubscription(k: SubId, inv: InvoiceId, x: Weather) returns (panicked: bool)
      requires Valid() && k in subs && Picked(model, w, k) && inv !in invoices
      requires x.charged.Some? ==> x.charged.value !in payments
      modifies this
      ensures Valid() && now == old(now) && panicked == Panics(x)
      ensures model == Exec(old(model), ChargeScript(w, k, inv, x))
      ensures subs.Keys == old(subs).Keys && model.picked == old(model.picked)[w := old(model.picked)[w] - {k}]
      ensures if GoesThrough(x) then RenewedOnce(old(subs)[k], subs[k])
              else subs[k] == old(subs)[k] || subs[k] == old(subs)[k].(status := PastDue)
      ensures invoices.Keys <= old(invoices).Keys + {inv}
      ensures payments.Keys <= old(payments).Keys + if x.charged.Some? then {x.charged.value} else {}
    {
      hide Inv, Exec, DraftAct, PayAct, ExtendAct, GiveUpInvoiceAct, GiveUpSubscriptionAct, ChargeScript, Plus;
      hide RenewedOnce, AtStage;
      RenewalIsOnePeriod(model, k);
      ghost var s, script := model, ChargeScript(w, k, inv, x);
      ExecKeeps(s, script);
      ScriptEnds(s, w, k, inv, x);
      PicksLeft(s, w, k, inv, x);
      KeysMeet(s);
      panicked := Panics(x);
      model := Exec(s, script);
      if x.scanFails || x.draftFails {
        return;
      }
      invoices := invoices[inv := Invoice(k, subs[k].amount, Draft, None)];
      Drafting(s, w, k, inv);
      if x.requestFails {
        return;
      }
      ghost var s1 := DraftAct(s, w, k, inv);
      Paying(s1, inv, x.charged, x.reply);
      ghost var s2 := PayAct(s1, inv, x.charged, x.reply);
      if x.charged.Some? {
        payments := payments[x.charged.value := Taken(inv, subs[k].amount)];
      }
      if x.reply.Refused? {
        GivingUpInvoice(s2, inv, x.invoiceFault);
        GivingUpSubscription(GiveUpInvoiceAct(s2, inv, x.invoiceFault), inv, x.subFault);
        if !x.invoiceFault {
          invoices := invoices[inv := invoices[inv].(status := Uncollectible)];
        }
        if !x.subFault {
          subs := subs[k := subs[k].(status := PastDue)];
        }
        return;
      }
      if x.beginFails {
        return;
      }
      var paymentId := if x.reply.Approved? then x.charged else None;
      Extending(s2, inv, paymentId, x.txFault);
      if !x.txFault && paymentId.Some? && paymentId.value in payments {
        invoices := invoices[inv := invoices[inv].(status := Paid, payment := paymentId)];
        subs := subs[k := subs[k].(start := subs[k].end, end := Plus(subs[k].interval, subs[k].end))];
      }
    }

    /** One tick: query, then charge row by row until the end or a panic. */
    method ProcessDueSubscriptions(queryFails: bool, invs: seq<InvoiceId>, xs: seq<Weather>)
      returns (rows: seq<SubId>, panicked: bool)
      requires Valid() && |invs| >= BATCH && |xs| >= BATCH
      requires Distinct(invs, xs) && Unused(invs, xs, 0, invoices, payments)
      modifies this
      ensures Valid() && now == old(now) && |rows| <= BATCH
      ensures queryFails ==> rows == [] && !panicked && model == old(model)
      ensures !queryFails ==> Selectable(old(model), Elems(rows))
      ensures forall i, j :: 0 <= i < j < |rows| ==> rows[i] != rows[j]
      ensures !queryFails ==>
                model == Exec(Apply(old(model), Select(w, Elems(rows))), BatchScript(w, rows, invs, xs, |rows|))
      ensures panicked <==> exists i :: 0 <= i < |rows| && Panics(xs[i])
    {
      hide Inv, Exec, ChargeScript, Due, Panics, Selectable, Elems, Apply, Unused, Distinct;
      if queryFails {
        return [], false;
      }
      rows := QueryDue();
      SelectAll(model, w, rows);
      model := Apply(model, Select(w, Elems(rows)));
      ghost var s := model;
      NothingRun(s);
      panicked := false;
      var n := 0;
      while n < |rows| && !panicked
        invariant Valid() && now == old(now) && 0 <= n <= |rows| <= BATCH
        invariant model == Exec(s, BatchScript(w, rows, invs, xs, n))
        invariant forall i :: n <= i < |rows| ==> Picked(model, w, rows[i]) && rows[i] in subs
        invariant Unused(invs, xs, n, invoices, payments)
        invariant forall i :: 0 <= i < n - 1 ==> !Panics(xs[i])
        invariant panicked <==> n > 0 && Panics(xs[n - 1])
      {
        OneRowMore(s, w, rows, invs, xs, n);
        UnusedAt(invs, xs, n, invoices, payments);
        ghost var open, taken := invoices, payments;
        panicked := ChargeSubscription(rows[n], invs[n], xs[n]);
        StillUnused(invs, xs, n, open, invoices, taken, payments);
        n := n + 1;
      }
      if panicked {
        AfterPanic(w, rows, invs, xs, n, |rows|);
      }
    }
  }
}
