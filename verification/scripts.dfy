/** One charge of one subscription as a script of machine steps, whatever goes wrong in it, and what it comes
    to: the renewal it pays for, or a payment that no renewal stands for. */
module Scripts {
  import opened Schema
  import opened Calendar
  import opened Billing

  /** What happens around one charge. */
  datatype Weather = Weather(scanFails: bool, draftFails: bool, requestFails: bool, charged: Option<PaymentId>,
                             reply: Reply,
                             invoiceFault: bool, subFault: bool, beginFails: bool, txFault: bool)

  predicate Asks(x: Weather) {
    !x.scanFails && !x.draftFails && !x.requestFails
  }

  predicate GoesThrough(x: Weather) {
    Asks(x) && x.reply.Approved? && x.charged.Some? && !x.beginFails && !x.txFault
  }

  /** A failing Begin leaves no transaction to defer a rollback on: the worker panics. */
  predicate Panics(x: Weather) {
    Asks(x) && !x.reply.Refused? && x.beginFails
  }

  function ChargeScript(w: WorkerId, k: SubId, inv: InvoiceId, x: Weather): seq<Action> {
    if x.scanFails || x.draftFails then [Skip(w, k)]
    else if x.requestFails then [DraftInvoice(w, k, inv), StopCharge(inv)]
    else
      [DraftInvoice(w, k, inv), Pay(inv, x.charged, x.reply)] +
      if x.reply.Refused? then [GiveUpInvoice(inv, x.invoiceFault), GiveUpSubscription(inv, x.subFault)]
      else if x.beginFails then [StopCharge(inv)]
      else [Extend(inv, x.txFault)]
  }

  lemma Runs(s: State, a: Action, b: Action, c: Action, d: Action)
    ensures Exec(s, [a]) == Apply(s, a) && Exec(s, [a, b]) == Apply(Apply(s, a), b)
    ensures Exec(s, [a, b, c]) == Apply(Apply(Apply(s, a), b), c)
    ensures Exec(s, [a, b, c, d]) == Apply(Apply(Apply(Apply(s, a), b), c), d)
  {
    hide Apply;
    assert [a][..0] == [] && [a, b][..1] == [a] && [a, b, c][..2] == [a, b] && [a, b, c, d][..3] == [a, b, c];
    assert Exec(s, [a]) == Apply(s, a);
    assert Exec(s, [a, b]) == Apply(Exec(s, [a]), b);
    assert Exec(s, [a, b, c]) == Apply(Exec(s, [a, b]), c);
  }

  lemma NothingRun(s: State)
    ensures Exec(s, []) == s
  {
  }

  // ----- one step each, seen from the tables -----

  lemma Drafting(s: State, w: WorkerId, k: SubId, inv: InvoiceId)
    requires k in s.subs && Picked(s, w, k) && inv !in s.invoices
    ensures var t := DraftAct(s, w, k, inv);
      && AtStage(t, inv, Drafted) && t.invoices == s.invoices[inv := Invoice(k, s.subs[k].amount, Draft, None)]
      && t.subs == s.subs && t.history == s.history && t.payments == s.payments && t.now == s.now
  {
  }

  function StageAfter(charged: Option<PaymentId>, reply: Reply): Stage {
    match reply
    case Approved => Answered(charged)
    case Garbled => Answered(None)
    case Refused => Declined
  }

  lemma Paying(s: State, inv: InvoiceId, charged: Option<PaymentId>, reply: Reply)
    requires AtStage(s, inv, Drafted) && (charged.Some? ==> charged.value !in s.payments)
    ensures var t := PayAct(s, inv, charged, reply);
      && AtStage(t, inv, StageAfter(charged, reply))
         && t.payments == (if charged.Some? then s.payments[charged.value := Taken(inv, s.invoices[inv].amount)]
                           else s.payments)
      && t.invoices == s.invoices && t.subs == s.subs && t.history == s.history && t.now == s.now
  {
  }

  lemma GivingUpInvoice(s: State, inv: InvoiceId, fault: bool)
    requires AtStage(s, inv, Declined)
    ensures var t := GiveUpInvoiceAct(s, inv, fault);
      && AtStage(t, inv, Closed)
      && t.invoices == (if fault then s.invoices else s.invoices[inv := s.invoices[inv].(status := Uncollectible)])
      && t.subs == s.subs && t.history == s.history && t.payments == s.payments && t.now == s.now
  {
  }

  lemma GivingUpSubscription(s: State, inv: InvoiceId, fault: bool)
    requires AtStage(s, inv, Closed) && s.invoices[inv].sub in s.subs
    ensures var t, k := GiveUpSubscriptionAct(s, inv, fault), s.invoices[inv].sub;
      && t.subs == (if fault then s.subs else s.subs[k := s.subs[k].(status := PastDue)])
      && t.invoices == s.invoices && t.history == s.history && t.payments == s.payments && t.now == s.now
  {
  }

  lemma Extending(s: State, inv: InvoiceId, id: Option<PaymentId>, fault: bool)
    requires AtStage(s, inv, Answered(id)) && s.invoices[inv].sub in s.subs && s.history.Keys == s.subs.Keys
    ensures var t, k := ExtendAct(s, inv, fault), s.invoices[inv].sub;
      && t.payments == s.payments && t.now == s.now
      && (if fault || id.None? || id.value !in s.payments then t.invoices == s.invoices && t.subs == s.subs
          else
            && t.invoices == s.invoices[inv := s.invoices[inv].(status := Paid, payment := id)]
            && t.subs == s.subs[k := Renewed(s.subs[k])])
  {
    hide Renewed;
  }

  /** Where each script ends. */
  lemma ScriptEnds(s: State, w: WorkerId, k: SubId, inv: InvoiceId, x: Weather)
    ensures var s1 := DraftAct(s, w, k, inv);
            var s2 := PayAct(s1, inv, x.charged, x.reply);
            var t := Exec(s, ChargeScript(w, k, inv, x));
      if x.scanFails || x.draftFails then t == Apply(s, Skip(w, k))
      else if x.requestFails then t == Apply(s1, StopCharge(inv))
      else if x.reply.Refused?
        then t == GiveUpSubscriptionAct(GiveUpInvoiceAct(s2, inv, x.invoiceFault), inv, x.subFault)
      else if x.beginFails then t == Apply(s2, StopCharge(inv))
      else t == ExtendAct(s2, inv, x.txFault)
  {
    hide Exec, DraftAct, PayAct, ExtendAct, GiveUpInvoiceAct, GiveUpSubscriptionAct;
    var draft, pay := DraftInvoice(w, k, inv), Pay(inv, x.charged, x.reply);
    var a := ChargeScript(w, k, inv, x);
    if x.scanFails || x.draftFails {
      Runs(s, Skip(w, k), pay, pay, pay);
    } else if x.requestFails {
      Runs(s, draft, StopCharge(inv), pay, pay);
    } else if x.reply.Refused? {
      Runs(s, draft, pay, GiveUpInvoice(inv, x.invoiceFault), GiveUpSubscription(inv, x.subFault));
      assert a == [draft, pay, GiveUpInvoice(inv, x.invoiceFault), GiveUpSubscription(inv, x.subFault)];
    } else if x.beginFails {
      Runs(s, draft, pay, StopCharge(inv), pay);
      assert a == [draft, pay, StopCharge(inv)];
    } else {
      Runs(s, draft, pay, Extend(inv, x.txFault), pay);
      assert a == [draft, pay, Extend(inv, x.txFault)];
    }
  }

  /** A charge takes its subscription off the worker's list and nothing else. */
  lemma PicksLeft(s: State, w: WorkerId, k: SubId, inv: InvoiceId, x: Weather)
    requires k in s.subs && Picked(s, w, k) && inv !in s.invoices
    ensures Exec(s, ChargeScript(w, k, inv, x)).picked == s.picked[w := s.picked[w] - {k}]
  {
    hide Exec, ChargeScript, Renewed, DraftAct, PayAct, GiveUpInvoiceAct, GiveUpSubscriptionAct, ExtendAct;
    ScriptEnds(s, w, k, inv, x);
    PicksOf(s, w, k, inv);
    var s1 := DraftAct(s, w, k, inv);
    PicksSame(s1, inv, x.charged, x.reply, x.invoiceFault);
    var s2 := PayAct(s1, inv, x.charged, x.reply);
    PicksSame(s2, inv, x.charged, x.reply, x.invoiceFault);
    PicksSame(s2, inv, x.charged, x.reply, x.txFault);
    PicksSame(GiveUpInvoiceAct(s2, inv, x.invoiceFault), inv, x.charged, x.reply, x.subFault);
  }

  lemma PicksOf(s: State, w: WorkerId, k: SubId, inv: InvoiceId)
    requires k in s.subs && Picked(s, w, k) && inv !in s.invoices
    ensures DraftAct(s, w, k, inv).picked == s.picked[w := s.picked[w] - {k}]
  {
  }

  lemma PicksSame(s: State, inv: InvoiceId, charged: Option<PaymentId>, reply: Reply, fault: bool)
    ensures PayAct(s, inv, charged, reply).picked == s.picked && ExtendAct(s, inv, fault).picked == s.picked
    ensures GiveUpInvoiceAct(s, inv, fault).picked == s.picked
            && GiveUpSubscriptionAct(s, inv, fault).picked == s.picked
  {
    hide Renewed;
  }

  lemma KeysMeet(s: State)
    requires Inv(s)
    ensures s.history.Keys == s.subs.Keys
  {
  }

  // ----- what the scripts come to -----

  /** One renewal: the next period starts where the last one ended and is one interval long. */
  predicate RenewedOnce(a: Subscription, b: Subscription) {
    b == a.(start := a.end, end := b.end) && OnePeriodLater(a.interval, a.end, b.end)
  }

  lemma RenewalIsOnePeriod(s: State, k: SubId)
    requires Inv(s) && k in s.subs
    ensures RenewedOnce(s.subs[k], Renewed(s.subs[k]))
  {
    hide Plus, OnePeriodLater, Chain;
    assert SubOk(s, k);
    ChainEnd(s.subs[k].interval, s.history[k]);
    PlusIsOnePeriodLater(s.subs[k].interval, s.subs[k].end, Renewed(s.subs[k]).end);
  }

  /** A charge that goes through: the invoice is paid by the new payment and the subscription is renewed;
      no other row changes. */
  lemma ChargeRenews(s: State, w: WorkerId, k: SubId, inv: InvoiceId, x: Weather)
    requires Inv(s) && k in s.subs && Picked(s, w, k) && inv !in s.invoices
    requires GoesThrough(x) && x.charged.value !in s.payments
    ensures var t := Exec(s, ChargeScript(w, k, inv, x));
      && t.subs == s.subs[k := Renewed(s.subs[k])] && RenewedOnce(s.subs[k], t.subs[k])
      && t.invoices == s.invoices[inv := Invoice(k, s.subs[k].amount, Paid, x.charged)]
      && t.payments == s.payments[x.charged.value := Taken(inv, s.subs[k].amount)]
  {
    hide Inv, Exec, DraftAct, PayAct, ExtendAct, Renewed, RenewedOnce, ChargeScript;
    RenewalIsOnePeriod(s, k);
    KeysMeet(s);
    Drafting(s, w, k, inv);
    var s1 := DraftAct(s, w, k, inv);
    Paying(s1, inv, x.charged, Approved);
    var s2 := PayAct(s1, inv, x.charged, Approved);
    Extending(s2, inv, x.charged, false);
    ScriptEnds(s, w, k, inv, x);
  }

  /** A charge the gateway refuses, or does not answer: no period moves, the invoice is uncollectible and the
      subscription past due. A payment may exist all the same. */
  lemma ChargeGivesUp(s: State, w: WorkerId, k: SubId, inv: InvoiceId, x: Weather)
    requires Inv(s) && k in s.subs && Picked(s, w, k) && inv !in s.invoices
    requires Asks(x) && x.reply.Refused? && (x.charged.Some? ==> x.charged.value !in s.payments) && !x.invoiceFault
             && !x.subFault
    ensures var t := Exec(s, ChargeScript(w, k, inv, x));
      && t.subs == s.subs[k := s.subs[k].(status := PastDue)] && t.history == s.history
      && t.invoices == s.invoices[inv := Invoice(k, s.subs[k].amount, Uncollectible, None)]
      && t.payments == if x.charged.Some? then s.payments[x.charged.value := Taken(inv, s.subs[k].amount)]
         else s.payments
  {
    hide Inv, Exec, DraftAct, PayAct, GiveUpInvoiceAct, GiveUpSubscriptionAct, ChargeScript;
    Drafting(s, w, k, inv);
    var s1 := DraftAct(s, w, k, inv);
    Paying(s1, inv, x.charged, Refused);
    var s2 := PayAct(s1, inv, x.charged, Refused);
    GivingUpInvoice(s2, inv, false);
    GivingUpSubscription(GiveUpInvoiceAct(s2, inv, false), inv, false);
    ScriptEnds(s, w, k, inv, x);
  }

  /** One charge that goes through, and what it leaves to another worker. */
  lemma FirstRenews(s: State, w: WorkerId, other: WorkerId, k: SubId, inv: InvoiceId, x: Weather)
    requires Inv(s) && k in s.subs && Picked(s, w, k) && inv !in s.invoices && w != other
    requires GoesThrough(x) && x.charged.value !in s.payments
    ensures var t := Exec(s, ChargeScript(w, k, inv, x));
      && Inv(t) && t.now == s.now && k in t.subs && t.subs[k] == Renewed(s.subs[k])
      && t.invoices == s.invoices[inv := Invoice(k, s.subs[k].amount, Paid, x.charged)]
      && t.payments == s.payments[x.charged.value := Taken(inv, s.subs[k].amount)]
      && (Picked(s, other, k) ==> Picked(t, other, k))
  {
    hide Inv, Exec, ChargeScript, Renewed;
    ChargeRenews(s, w, k, inv, x);
    PicksLeft(s, w, k, inv, x);
    ExecKeeps(s, ChargeScript(w, k, inv, x));
    ClockStands(s, w, k, inv, x);
  }

  lemma ClockStands(s: State, w: WorkerId, k: SubId, inv: InvoiceId, x: Weather)
    ensures Exec(s, ChargeScript(w, k, inv, x)).now == s.now
  {
    hide Exec, ChargeScript, Renewed, DraftAct, PayAct, GiveUpInvoiceAct, GiveUpSubscriptionAct, ExtendAct;
    ScriptEnds(s, w, k, inv, x);
    var s1 := DraftAct(s, w, k, inv);
    var s2 := PayAct(s1, inv, x.charged, x.reply);
    SameClock(s, w, k, inv, x.charged, x.reply, x.txFault);
    SameClock(s1, w, k, inv, x.charged, x.reply, x.txFault);
    SameClock(s2, w, k, inv, x.charged, x.reply, x.txFault);
    SameClock(s2, w, k, inv, x.charged, x.reply, x.invoiceFault);
    SameClock(GiveUpInvoiceAct(s2, inv, x.invoiceFault), w, k, inv, x.charged, x.reply, x.subFault);
  }

  lemma SameClock(s: State, w: WorkerId, k: SubId, inv: InvoiceId, charged: Option<PaymentId>, reply: Reply,
                  fault: bool)
    ensures DraftAct(s, w, k, inv).now == s.now && PayAct(s, inv, charged, reply).now == s.now
            && ExtendAct(s, inv, fault).now == s.now
    ensures GiveUpInvoiceAct(s, inv, fault).now == s.now && GiveUpSubscriptionAct(s, inv, fault).now == s.now
  {
    hide Renewed;
  }

  // ----- paying twice -----

  /** Whatever happens after the payment was taken, its invoice is paid and the subscription renewed exactly
      when the charge goes through; the subscription stays active exactly when it is not given up. */
  lemma RenewedIffGoesThrough(s: State, w: WorkerId, k: SubId, inv: InvoiceId, x: Weather)
    requires Inv(s) && k in s.subs && Picked(s, w, k) && inv !in s.invoices
    requires Asks(x) && x.charged.Some? && x.charged.value !in s.payments
    ensures var t := Exec(s, ChargeScript(w, k, inv, x));
      && t.payments == s.payments[x.charged.value := Taken(inv, s.subs[k].amount)]
      && t.invoices.Keys == s.invoices.Keys + {inv} && t.invoices == s.invoices[inv := t.invoices[inv]]
      && t.invoices[inv].sub == k && (t.invoices[inv].status == Paid <==> GoesThrough(x))
      && t.subs == s.subs[k := if GoesThrough(x) then Renewed(s.subs[k])
                               else if x.reply.Refused? && !x.subFault then s.subs[k].(status := PastDue)
                               else s.subs[k]]
  {
    hide Inv, Exec, DraftAct, PayAct, ExtendAct, GiveUpInvoiceAct, GiveUpSubscriptionAct, ChargeScript, Renewed;
    ScriptEnds(s, w, k, inv, x);
    KeysMeet(s);
    Drafting(s, w, k, inv);
    var s1 := DraftAct(s, w, k, inv);
    Paying(s1, inv, x.charged, x.reply);
    var s2 := PayAct(s1, inv, x.charged, x.reply);
    if x.reply.Refused? {
      GivingUpInvoice(s2, inv, x.invoiceFault);
      GivingUpSubscription(GiveUpInvoiceAct(s2, inv, x.invoiceFault), inv, x.subFault);
    } else if !x.beginFails {
      Extending(s2, inv, if x.reply.Approved? then x.charged else None, x.txFault);
    }
  }

  /** A tick of a worker that finds only k due. */
  function Tick(k: SubId, inv: InvoiceId, x: Weather): seq<Action> {
    [Select(0, {k})] + ChargeScript(0, k, inv, x)
  }

  lemma SelectOne(s: State, k: SubId)
    requires DueSubs(s) == {k} && Inv(s)
    ensures var t := Exec(s, [Select(0, {k})]);
      && t == s.(picked := s.picked[0 := {k}]) && Inv(t) && Picked(t, 0, k) && k in s.subs
  {
    assert k in DueSubs(s);
    ExecKeeps(s, [Select(0, {k})]);
    Runs(s, Select(0, {k}), Select(0, {k}), Select(0, {k}), Select(0, {k}));
  }

  lemma TickRenewedIff(s: State, k: SubId, inv: InvoiceId, x: Weather)
    requires Inv(s) && DueSubs(s) == {k} && inv !in s.invoices
    requires Asks(x) && x.charged.Some? && x.charged.value !in s.payments
    ensures var t := Exec(s, Tick(k, inv, x));
      && Inv(t) && t.now == s.now && k in s.subs
      && t.payments == s.payments[x.charged.value := Taken(inv, s.subs[k].amount)]
      && t.invoices.Keys == s.invoices.Keys + {inv} && t.invoices == s.invoices[inv := t.invoices[inv]]
      && t.invoices[inv].sub == k && (t.invoices[inv].status == Paid <==> GoesThrough(x))
      && t.subs == s.subs[k := if GoesThrough(x) then Renewed(s.subs[k])
                               else if x.reply.Refused? && !x.subFault then s.subs[k].(status := PastDue)
                               else s.subs[k]]
  {
    hide Inv, Exec, ChargeScript, Renewed, Picked, Asks, GoesThrough;
    SelectOne(s, k);
    var s1 := Exec(s, [Select(0, {k})]);
    ExecAppend(s, [Select(0, {k})], ChargeScript(0, k, inv, x));
    RenewedIffGoesThrough(s1, 0, k, inv, x);
    ExecKeeps(s1, ChargeScript(0, k, inv, x));
    ClockStands(s1, 0, k, inv, x);
  }

  /** The payment is taken, the renewal is not committed, and the subscription is not given up. */
  predicate PaidInVain(x: Weather) {
    Asks(x) && x.charged.Some? && !GoesThrough(x) && !(x.reply.Refused? && !x.subFault)
  }

  /** The key in the request is new for every invoice, so it does not stop a second payment for one period:
      from any state with k due, a tick in vain and a tick that goes through leave two payments for k, one
      paid invoice and one renewal. */
  lemma PaidTwiceForOnePeriod(s: State, k: SubId, i: InvoiceId, j: InvoiceId, x: Weather, y: Weather)
    requires Inv(s) && PaymentsOk(s) && DueSubs(s) == {k} && i !in s.invoices && j !in s.invoices && i != j
    requires PaidInVain(x) && GoesThrough(y) && x.charged != y.charged
    requires x.charged.value !in s.payments && y.charged.value !in s.payments
    ensures var t := Exec(s, Tick(k, i, x) + Tick(k, j, y));
      && k in s.subs && k in t.subs && RenewedOnce(s.subs[k], t.subs[k])
      && TakenFor(t, k) == TakenFor(s, k) + {x.charged.value, y.charged.value}
      && PaidFor(t.invoices, k) == PaidFor(s.invoices, k) + {j}
      && Unrenewed(t, k) == Unrenewed(s, k) + {x.charged.value}
  {
    hide Inv, Exec, Tick, Renewed, RenewedOnce, Asks, PaymentsOk;
    ExecAppend(s, Tick(k, i, x), Tick(k, j, y));
    TickRenewedIff(s, k, i, x);
    RenewalIsOnePeriod(s, k);
    var s1 := Exec(s, Tick(k, i, x));
    SameDue(s, s1, k);
    TickRenewedIff(s1, k, j, y);
    TwoTaken(s, s1, Exec(s1, Tick(k, j, y)), k, i, j, x.charged.value, y.charged.value);
  }

  lemma SameDue(s: State, t: State, k: SubId)
    requires t.subs == s.subs && t.now == s.now
    ensures DueSubs(t) == DueSubs(s)
  {
  }

  lemma TwoTaken(s: State, s1: State, t: State, k: SubId, i: InvoiceId, j: InvoiceId, p: PaymentId, q: PaymentId)
    requires PaymentsOk(s) && i !in s.invoices && j !in s.invoices && i != j && p !in s.payments && q !in s.payments
             && p != q
    requires s1.payments.Keys == s.payments.Keys + {p} && s1.payments == s.payments[p := s1.payments[p]]
             && s1.payments[p].invoice == i
    requires s1.invoices.Keys == s.invoices.Keys + {i} && s1.invoices == s.invoices[i := s1.invoices[i]]
    requires s1.invoices[i].sub == k && s1.invoices[i].status != Paid
    requires t.payments.Keys == s1.payments.Keys + {q} && t.payments == s1.payments[q := t.payments[q]]
             && t.payments[q].invoice == j
    requires t.invoices.Keys == s1.invoices.Keys + {j} && t.invoices == s1.invoices[j := t.invoices[j]]
    requires t.invoices[j].sub == k && t.invoices[j].status == Paid
    ensures TakenFor(t, k) == TakenFor(s, k) + {p, q} && PaidFor(t.invoices, k) == PaidFor(s.invoices, k) + {j}
    ensures Unrenewed(t, k) == Unrenewed(s, k) + {p}
  {
    hide TakenFor, PaidFor, Unrenewed, PaymentsOk;
    TakenForInvoices(s);
    OneTaken(s, s1, k, i, p);
    OneTaken(s1, t, k, j, q);
  }

  lemma TakenForInvoices(s: State)
    requires PaymentsOk(s)
    ensures forall r :: r in s.payments ==> s.payments[r].invoice in s.invoices
  {
    forall r | r in s.payments ensures s.payments[r].invoice in s.invoices { assert TakenOk(s, r); }
  }

  lemma OneTaken(s: State, t: State, k: SubId, i: InvoiceId, p: PaymentId)
    requires forall r :: r in s.payments ==> s.payments[r].invoice in s.invoices
    requires i !in s.invoices && p !in s.payments
    requires t.payments.Keys == s.payments.Keys + {p} && t.payments == s.payments[p := t.payments[p]]
             && t.payments[p].invoice == i
    requires t.invoices.Keys == s.invoices.Keys + {i} && t.invoices == s.invoices[i := t.invoices[i]]
    requires t.invoices[i].sub == k
    ensures forall r :: r in t.payments ==> t.payments[r].invoice in t.invoices
    ensures TakenFor(t, k) == TakenFor(s, k) + {p}
    ensures PaidFor(t.invoices, k) == PaidFor(s.invoices, k) + if t.invoices[i].status == Paid then {i} else {}
    ensures Unrenewed(t, k) == Unrenewed(s, k) + if t.invoices[i].status == Paid then {} else {p}
  {
    forall r | r in s.payments
      ensures t.payments[r] == s.payments[r] && t.invoices[s.payments[r].invoice] == s.invoices[s.payments[r].invoice]
    {
    }
  }

  const EMPTY: State := State(0, map[], map[], map[], map[], map[], map[])

  /** A monthly subscription from at, and then the end of its first period. */
  function UntilDue(k: SubId, at: Stamp): seq<Action> {
    [Subscribe(k, EveryMonth, 1, at), Wait(Seconds(GoPlus(EveryMonth, at)))]
  }

  lemma DueAtEnd(k: SubId, at: Stamp)
    requires ValidStamp(at)
    ensures var s := Exec(EMPTY, UntilDue(k, at));
      && Inv(s) && PaymentsOk(s) && DueSubs(s) == {k} && s.payments == map[] && s.invoices == map[] && s.picked == map[]
      && k in s.subs && s.subs[k].end == GoPlus(EveryMonth, at) && s.now == Seconds(s.subs[k].end)
      && TakenFor(s, k) == {} && PaidFor(s.invoices, k) == {}
  {
    Always(EMPTY, UntilDue(k, at));
    AlwaysPayments(EMPTY, UntilDue(k, at));
    var end := GoPlus(EveryMonth, at);
    Runs(EMPTY, Subscribe(k, EveryMonth, 1, at), Wait(Seconds(end)), Wait(0), Wait(0));
    hide Exec, Seconds, GoPlus, ValidStamp, Inv, PaymentsOk;
    var s := Exec(EMPTY, UntilDue(k, at));
    assert s.subs == map[k := Subscription(EveryMonth, 1, Active, at, end)];
  }

  const TX_FAILS: Weather := Weather(false, false, false, Some(1), Approved, false, false, false, true)
  const FINE: Weather := Weather(false, false, false, Some(2), Approved, false, false, false, false)

  /** A run from the empty tables in which the customer pays twice for one renewal: the first transaction
      fails after the payment. */
  lemma PaidTwiceFromStart(k: SubId, at: Stamp)
    requires ValidStamp(at)
    ensures Initial(EMPTY)
    ensures var t := Exec(EMPTY, UntilDue(k, at) + (Tick(k, 1, TX_FAILS) + Tick(k, 2, FINE)));
      && TakenFor(t, k) == {1, 2} && PaidFor(t.invoices, k) == {2} && k in t.history && |t.history[k]| == 2
  {
    hide Exec, Tick, UntilDue, Renewed, Chain, TakenFor, PaidFor, Unrenewed, Inv, PaymentsOk, DueSubs;
    var s, rest := Exec(EMPTY, UntilDue(k, at)), Tick(k, 1, TX_FAILS) + Tick(k, 2, FINE);
    DueAtEnd(k, at);
    PaidTwiceForOnePeriod(s, k, 1, 2, TX_FAILS, FINE);
    ExecAppend(EMPTY, UntilDue(k, at), rest);
    Always(EMPTY, UntilDue(k, at) + rest);
    SubAmount(Exec(EMPTY, UntilDue(k, at) + rest), k);
  }
}
