/** The subscription billing cycle: any number of workers select due subscriptions, draft an invoice, ask
    the gateway for a payment, and either extend the period or give the subscription up. Each statement
    is a step, the two updates of a success are one transaction, and everything can fail or stop. */
module Billing {
  import opened Schema
  import opened Calendar

  type SubId = nat
  type InvoiceId = nat
  type WorkerId = nat

  const BATCH: nat := 100

  datatype SubStatus = Active | PastDue | Canceled | Unpaid

  datatype Subscription = Subscription(interval: Interval, amount: int, status: SubStatus, start: Stamp, end: Stamp)

  datatype InvoiceStatus = Draft | Paid | Uncollectible

  datatype Invoice = Invoice(sub: SubId, amount: int, status: InvoiceStatus, payment: Option<PaymentId>)

  datatype Period = Period(start: Stamp, end: Stamp)

  /** How the gateway's answer reads: a payment id, a success without one, or an error or no answer. */
  datatype Reply = Approved | Garbled | Refused

  /** Where the charge of an invoice is. */
  datatype Stage = Drafted | Answered(id: Option<PaymentId>) | Declined | Closed | Gone

  /** What the gateway's payments table says of a payment: the invoice in its idempotency key, the amount. */
  datatype Taken = Taken(invoice: InvoiceId, amount: int)

  /** history records every value the period columns of a subscription had. */
  datatype State = State(now: nat, subs: map<SubId, Subscription>, invoices: map<InvoiceId, Invoice>,
                         payments: map<PaymentId, Taken>, picked: map<WorkerId, set<SubId>>,
                         charges: map<InvoiceId, Stage>, history: map<SubId, seq<Period>>)

  datatype Action =
    | Wait(seconds: nat)
    | Subscribe(k: SubId, interval: Interval, amount: int, at: Stamp)
    | Select(w: WorkerId, chosen: set<SubId>)
    | Skip(w: WorkerId, k: SubId)
    | DraftInvoice(w: WorkerId, k: SubId, inv: InvoiceId)
    | Pay(inv: InvoiceId, charged: Option<PaymentId>, reply: Reply)
    | GiveUpInvoice(inv: InvoiceId, fault: bool)
    | GiveUpSubscription(inv: InvoiceId, fault: bool)
    | Extend(inv: InvoiceId, fault: bool)
    | StopCharge(inv: InvoiceId)
    | StopWorker(w: WorkerId)

  predicate Due(sub: Subscription, now: nat) {
    sub.status == Active && Seconds(sub.end) <= now
  }

  ghost function DueSubs(s: State): set<SubId> {
    set k | k in s.subs && Due(s.subs[k], s.now)
  }

  /** SELECT ... LIMIT 100: some of the due ones, all of them when they fit. */
  ghost predicate Selectable(s: State, chosen: set<SubId>) {
    chosen <= DueSubs(s) && |chosen| <= BATCH && (chosen == DueSubs(s) || |chosen| == BATCH)
  }

  predicate AtStage(s: State, inv: InvoiceId, stage: Stage) {
    inv in s.charges && inv in s.invoices && s.charges[inv] == stage
  }

  predicate Picked(s: State, w: WorkerId, k: SubId) {
    w in s.picked && k in s.picked[w]
  }

  function Renewed(sub: Subscription): Subscription {
    sub.(start := sub.end, end := Plus(sub.interval, sub.end))
  }

  function SubscribeAct(s: State, k: SubId, interval: Interval, amount: int, at: Stamp): State {
    if k in s.subs || amount <= 0 || !ValidStamp(at) then s
    else
      var end := GoPlus(interval, at);
      s.(subs := s.subs[k := Subscription(interval, amount, Active, at, end)],
         history := s.history[k := [Period(at, end)]])
  }

  function DraftAct(s: State, w: WorkerId, k: SubId, inv: InvoiceId): State {
    if w in s.picked && k in s.picked[w] && inv !in s.invoices && k in s.subs then
      s.(picked := s.picked[w := s.picked[w] - {k}],
         invoices := s.invoices[inv := Invoice(k, s.subs[k].amount, Draft, None)],
         charges := s.charges[inv := Drafted])
    else s
  }

  function PayAct(s: State, inv: InvoiceId, charged: Option<PaymentId>, reply: Reply): State {
    if AtStage(s, inv, Drafted) && (charged.Some? ==> charged.value !in s.payments) then
      var payments := if charged.Some? then s.payments[charged.value := Taken(inv, s.invoices[inv].amount)]
        else s.payments;
      var stage := match reply
        case Approved => Answered(charged)
        case Garbled => Answered(None)
        case Refused => Declined;
      s.(payments := payments, charges := s.charges[inv := stage])
    else s
  }

  function GiveUpInvoiceAct(s: State, inv: InvoiceId, fault: bool): State {
    if AtStage(s, inv, Declined) then
      var s' := s.(charges := s.charges[inv := Closed]);
      if fault then s' else s'.(invoices := s.invoices[inv := s.invoices[inv].(status := Uncollectible)])
    else s
  }

  function GiveUpSubscriptionAct(s: State, inv: InvoiceId, fault: bool): State {
    if AtStage(s, inv, Closed) then
      var s' := s.(charges := s.charges[inv := Gone]);
      var k := s.invoices[inv].sub;
      if fault || k !in s.subs then s' else s'.(subs := s.subs[k := s.subs[k].(status := PastDue)])
    else s
  }

  function Drop(s: State, inv: InvoiceId): State {
    s.(charges := s.charges[inv := Gone])
  }

  predicate Extends(s: State, inv: InvoiceId) {
    && inv in s.charges && s.charges[inv].Answered? && s.charges[inv].id.Some? && s.charges[inv].id.value in s.payments
    && inv in s.invoices && s.invoices[inv].sub in s.subs && s.invoices[inv].sub in s.history
  }

  function RenewAct(s: State, inv: InvoiceId): State
    requires Extends(s, inv)
  {
    var k := s.invoices[inv].sub;
    var sub := Renewed(s.subs[k]);
    Drop(s, inv).(invoices := s.invoices[inv := s.invoices[inv].(status := Paid, payment := s.charges[inv].id)],
                  subs := s.subs[k := sub], history := s.history[k := s.history[k] + [Period(sub.start, sub.end)]])
  }

  /** The transaction of a success. Its errors are ignored: a payment id that names no payment violates the
      foreign key, and then nothing is committed. */
  function ExtendAct(s: State, inv: InvoiceId, fault: bool): State {
    if !(inv in s.charges && s.charges[inv].Answered?) then s
    else if fault || !Extends(s, inv) then Drop(s, inv)
    else RenewAct(s, inv)
  }

  ghost function Apply(s: State, a: Action): State {
    match a
    case Wait(d) => s.(now := s.now + d)
    case Subscribe(k, interval, amount, at) => SubscribeAct(s, k, interval, amount, at)
    case Select(w, chosen) => if Selectable(s, chosen) then s.(picked := s.picked[w := chosen]) else s
    case Skip(w, k) => if w in s.picked then s.(picked := s.picked[w := s.picked[w] - {k}]) else s
    case DraftInvoice(w, k, inv) => DraftAct(s, w, k, inv)
    case Pay(inv, charged, reply) => PayAct(s, inv, charged, reply)
    case GiveUpInvoice(inv, fault) => GiveUpInvoiceAct(s, inv, fault)
    case GiveUpSubscription(inv, fault) => GiveUpSubscriptionAct(s, inv, fault)
    case Extend(inv, fault) => ExtendAct(s, inv, fault)
    case StopCharge(inv) => if inv in s.charges then Drop(s, inv) else s
    case StopWorker(w) => s.(picked := s.picked - {w})
  }

  ghost function Exec(s: State, acts: seq<Action>): State {
    if acts == [] then s else Apply(Exec(s, acts[..|acts| - 1]), acts[|acts| - 1])
  }

  ghost predicate Initial(s: State) {
    s.subs == map[] && s.invoices == map[] && s.payments == map[] && s.picked == map[] && s.charges == map[]
      && s.history == map[]
  }

  // ----- the invariant -----

  function PaidFor(invoices: map<InvoiceId, Invoice>, k: SubId): set<InvoiceId> {
    set inv | inv in invoices && invoices[inv].sub == k && invoices[inv].status == Paid
  }

  /** The periods meet, the first is a Go period, and each later end is the first end renewed that often. */
  ghost predicate Chain(interval: Interval, h: seq<Period>) {
    && |h| >= 1 && ValidStamp(h[0].start) && h[0].end == GoPlus(interval, h[0].start)
    && (forall i :: 0 <= i < |h| ==> h[i].end == PlusTimes(interval, h[0].end, i))
    && (forall i :: 0 < i < |h| ==> h[i].start == h[i - 1].end)
  }

  ghost predicate SubOk(s: State, k: SubId)
    requires k in s.subs
  {
    && k in s.history && Chain(s.subs[k].interval, s.history[k])
    && s.history[k][|s.history[k]| - 1] == Period(s.subs[k].start, s.subs[k].end)
    && |s.history[k]| == 1 + |PaidFor(s.invoices, k)|
  }

  predicate Charged(payments: map<PaymentId, Taken>, p: PaymentId, inv: InvoiceId, amount: int) {
    p in payments && payments[p] == Taken(inv, amount)
  }

  predicate InvoiceOk(s: State, inv: InvoiceId)
    requires inv in s.invoices
  {
    var i := s.invoices[inv];
    && i.sub in s.subs && i.amount == s.subs[i.sub].amount && i.amount > 0 && inv in s.charges
    && (s.charges[inv] in {Drafted, Declined} || s.charges[inv].Answered? ==> i.status == Draft)
    && (s.charges[inv].Answered? && s.charges[inv].id.Some? ==>
        Charged(s.payments, s.charges[inv].id.value, inv, i.amount))
    && (i.status == Paid <==> i.payment.Some?)
    && (i.payment.Some? ==> Charged(s.payments, i.payment.value, inv, i.amount))
  }

  ghost predicate SubsOk(s: State) {
    s.history.Keys == s.subs.Keys && forall k :: k in s.subs ==> s.subs[k].amount > 0 && SubOk(s, k)
  }

  ghost predicate InvoicesOk(s: State) {
    forall inv :: inv in s.invoices ==> InvoiceOk(s, inv)
  }

  ghost predicate Inv(s: State) {
    SubsOk(s) && InvoicesOk(s)
  }

  predicate SubEvolves(a: Subscription, b: Subscription) {
    && b.interval == a.interval && b.amount == a.amount && Seconds(a.end) <= Seconds(b.end)
    && (a.status != Active ==> b.status == a.status || b.status == PastDue)
    && (a.status == PastDue ==> b.status == PastDue)
  }

  ghost predicate SubsEvolve(a: map<SubId, Subscription>, b: map<SubId, Subscription>) {
    forall k :: k in a ==> k in b && SubEvolves(a[k], b[k])
  }

  ghost predicate HistoryEvolves(a: map<SubId, seq<Period>>, b: map<SubId, seq<Period>>) {
    forall k :: k in a ==> k in b && a[k] <= b[k]
  }

  ghost predicate InvoicesEvolve(a: map<InvoiceId, Invoice>, b: map<InvoiceId, Invoice>) {
    forall inv :: inv in a ==> inv in b && b[inv].sub == a[inv].sub && (a[inv].status != Draft ==> b[inv] == a[inv])
  }

  ghost predicate PaymentsEvolve(a: map<PaymentId, Taken>, b: map<PaymentId, Taken>) {
    forall p :: p in a ==> p in b && b[p] == a[p]
  }

  /** What no step undoes. */
  ghost predicate Evolves(s: State, s': State) {
    && s.now <= s'.now && SubsEvolve(s.subs, s'.subs) && HistoryEvolves(s.history, s'.history)
    && InvoicesEvolve(s.invoices, s'.invoices) && PaymentsEvolve(s.payments, s'.payments)
  }

  // ----- every step keeps it -----

  lemma ChainEnd(interval: Interval, h: seq<Period>)
    requires Chain(interval, h)
    ensures ValidStamp(h[|h| - 1].end)
  {
    PlusAdvances(interval, h[0].start);
    PlusTimesAdvances(interval, h[0].end, |h| - 1);
  }

  lemma ChainGrows(interval: Interval, h: seq<Period>)
    requires Chain(interval, h)
    ensures var end := h[|h| - 1].end; Chain(interval, h + [Period(end, Plus(interval, end))])
  {
    hide Plus, GoPlus;
    var end := h[|h| - 1].end;
    var h' := h + [Period(end, Plus(interval, end))];
    forall i | 0 <= i < |h'| ensures h'[i].end == PlusTimes(interval, h'[0].end, i) {
      if i < |h| { assert h'[i] == h[i]; }
    }
  }

  /** Steps that leave subscriptions, invoices and their history alone. */
  lemma QuietStep(s: State, s': State)
    requires Inv(s) && s'.subs == s.subs && s'.invoices == s.invoices && s'.history == s.history && s.now <= s'.now
    requires forall x :: x in s.charges ==> x in s'.charges && (s'.charges[x] == s.charges[x] || s'.charges[x].Gone?)
    requires s'.payments == s.payments
    ensures Inv(s') && Evolves(s, s')
  {
    forall k | k in s'.subs ensures SubOk(s', k) { assert SubOk(s, k); }
    forall inv | inv in s'.invoices ensures InvoiceOk(s', inv) { assert InvoiceOk(s, inv); }
  }

  /** Only subscription k and its history change. */
  lemma SubsKept(s: State, s': State, k: SubId)
    requires SubsOk(s) && k in s'.subs && k in s'.history
    requires s'.subs == s.subs[k := s'.subs[k]] && s'.history == s.history[k := s'.history[k]]
    requires s'.subs[k].amount > 0 && SubOk(s', k)
    requires forall x :: x in s.subs && x != k ==> PaidFor(s'.invoices, x) == PaidFor(s.invoices, x)
    ensures SubsOk(s')
  {
    hide Chain, PaidFor;
    forall x | x in s'.subs ensures s'.subs[x].amount > 0 && SubOk(s', x) { if x != k { assert SubOk(s, x); } }
  }

  /** Only invoice inv and its charge change. */
  lemma InvoicesKept(s: State, s': State, inv: InvoiceId)
    requires InvoicesOk(s)
    requires s'.invoices == s.invoices || (inv in s'.invoices && s'.invoices == s.invoices[inv := s'.invoices[inv]])
    requires inv in s'.invoices ==> InvoiceOk(s', inv)
    requires forall x :: x in s.charges ==> x in s'.charges && (x != inv ==> s'.charges[x] == s.charges[x])
    requires forall p :: p in s.payments ==> p in s'.payments && s'.payments[p] == s.payments[p]
    requires forall k :: k in s.subs ==> k in s'.subs && s'.subs[k].amount == s.subs[k].amount
    ensures InvoicesOk(s')
  {
    forall x | x in s'.invoices ensures InvoiceOk(s', x) { if x != inv { assert InvoiceOk(s, x); } }
  }

  lemma Same(s: State)
    ensures SubsEvolve(s.subs, s.subs) && HistoryEvolves(s.history, s.history)
    ensures InvoicesEvolve(s.invoices, s.invoices) && PaymentsEvolve(s.payments, s.payments)
  {
  }

  lemma OneSubEvolves(a: map<SubId, Subscription>, k: SubId, sub: Subscription)
    requires k in a ==> SubEvolves(a[k], sub)
    ensures SubsEvolve(a, a[k := sub])
  {
    hide Seconds;
    forall x | x in a && x != k ensures SubEvolves(a[x], a[x]) {}
  }

  lemma OneHistoryEvolves(a: map<SubId, seq<Period>>, k: SubId, h: seq<Period>)
    requires k in a ==> a[k] <= h
    ensures HistoryEvolves(a, a[k := h])
  {
  }

  lemma OneInvoiceEvolves(a: map<InvoiceId, Invoice>, inv: InvoiceId, i: Invoice)
    requires inv in a ==> a[inv].status == Draft && i.sub == a[inv].sub
    ensures InvoicesEvolve(a, a[inv := i])
  {
  }

  lemma NewSub(s: State, s': State, k: SubId, interval: Interval, amount: int, at: Stamp)
    requires Inv(s) && s' == SubscribeAct(s, k, interval, amount, at) && s' != s
    ensures k !in s.subs && k !in s.history && k in s'.subs && k in s'.history && s'.subs[k].amount > 0 && SubOk(s', k)
  {
    assert PaidFor(s.invoices, k) == {} by {
      forall inv | inv in s.invoices ensures s.invoices[inv].sub != k { assert InvoiceOk(s, inv); }
    }
  }

  lemma SubscribeStep(s: State, k: SubId, interval: Interval, amount: int, at: Stamp)
    requires Inv(s)
    ensures Inv(SubscribeAct(s, k, interval, amount, at)) && Evolves(s, SubscribeAct(s, k, interval, amount, at))
  {
    hide SubsOk, InvoicesOk, PaidFor, SubOk, InvoiceOk, GoPlus, ValidStamp, SubsEvolve, HistoryEvolves, InvoicesEvolve,
         PaymentsEvolve;
    var s' := SubscribeAct(s, k, interval, amount, at);
    Same(s);
    if s' != s {
      NewSub(s, s', k, interval, amount, at);
      SubsKept(s, s', k);
      NewSubscription(s, s');
      OneSubEvolves(s.subs, k, s'.subs[k]);
      OneHistoryEvolves(s.history, k, s'.history[k]);
    }
  }

  lemma NewSubscription(s: State, s': State)
    requires InvoicesOk(s) && s'.invoices == s.invoices && s'.charges == s.charges && s'.payments == s.payments
    requires forall k :: k in s.subs ==> k in s'.subs && s'.subs[k] == s.subs[k]
    ensures InvoicesOk(s')
  {
    forall inv | inv in s'.invoices ensures InvoiceOk(s', inv) { assert InvoiceOk(s, inv); }
  }

  /** An invoice that is not paid comes or changes: the paid ones are the same. */
  lemma SamePaid(invoices: map<InvoiceId, Invoice>, inv: InvoiceId, i: Invoice, k: SubId)
    requires inv in invoices ==> invoices[inv].status != Paid
    requires i.status != Paid
    ensures PaidFor(invoices[inv := i], k) == PaidFor(invoices, k)
  {
  }

  lemma OnePaid(invoices: map<InvoiceId, Invoice>, inv: InvoiceId, i: Invoice, k: SubId)
    requires inv in invoices && invoices[inv].status != Paid && i.status == Paid && i.sub == invoices[inv].sub
    ensures |PaidFor(invoices[inv := i], k)| == |PaidFor(invoices, k)| + if k == i.sub then 1 else 0
  {
    assert PaidFor(invoices[inv := i], k) == PaidFor(invoices, k) + if k == i.sub then {inv} else {};
  }

  lemma InvoiceHolds(s: State, inv: InvoiceId)
    requires Inv(s) && inv in s.invoices
    ensures InvoiceOk(s, inv) && s.invoices[inv].sub in s.subs && inv in s.charges && SubOk(s, s.invoices[inv].sub)
  {
  }

  /** One invoice that is not paid, before or after, comes or changes, with its charge and the payments. */
  lemma InvoiceStep(s: State, s': State, inv: InvoiceId)
    requires Inv(s) && inv in s'.invoices && s'.invoices == s.invoices[inv := s'.invoices[inv]]
             && s'.invoices[inv].status != Paid
    requires inv in s.invoices ==> s.invoices[inv].status == Draft && s'.invoices[inv].sub == s.invoices[inv].sub
    requires inv in s'.charges && s'.charges == s.charges[inv := s'.charges[inv]] && InvoiceOk(s', inv)
    requires s'.subs == s.subs && s'.history == s.history && s'.now == s.now
    requires forall p :: p in s.payments ==> p in s'.payments && s'.payments[p] == s.payments[p]
    ensures Inv(s') && Evolves(s, s')
  {
    hide Chain, PaidFor;
    forall x | x in s'.subs ensures SubOk(s', x) {
      assert SubOk(s, x);
      SamePaid(s.invoices, inv, s'.invoices[inv], x);
    }
    forall x | x in s'.invoices ensures InvoiceOk(s', x) { if x != inv { assert InvoiceOk(s, x); } }
  }

  lemma DraftStep(s: State, w: WorkerId, k: SubId, inv: InvoiceId)
    requires Inv(s)
    ensures Inv(DraftAct(s, w, k, inv)) && Evolves(s, DraftAct(s, w, k, inv))
  {
    var s' := DraftAct(s, w, k, inv);
    if s' == s { QuietStep(s, s); } else { InvoiceStep(s, s', inv); }
  }

  lemma InvoiceAnswered(s: State, inv: InvoiceId, charged: Option<PaymentId>, reply: Reply)
    requires AtStage(s, inv, Drafted) && InvoiceOk(s, inv) && (charged.Some? ==> charged.value !in s.payments)
    ensures InvoiceOk(PayAct(s, inv, charged, reply), inv) && s.invoices[inv].status == Draft
  {
  }

  lemma PayStep(s: State, inv: InvoiceId, charged: Option<PaymentId>, reply: Reply)
    requires Inv(s)
    ensures Inv(PayAct(s, inv, charged, reply)) && Evolves(s, PayAct(s, inv, charged, reply))
  {
    hide Inv, Evolves, InvoiceOk, SubOk;
    var s' := PayAct(s, inv, charged, reply);
    if !AtStage(s, inv, Drafted) || (charged.Some? && charged.value in s.payments) {
      QuietStep(s, s);
    } else {
      InvoiceHolds(s, inv);
      InvoiceAnswered(s, inv, charged, reply);
      InvoiceStep(s, s', inv);
    }
  }

  lemma InvoiceGivenUp(s: State, inv: InvoiceId, fault: bool)
    requires AtStage(s, inv, Declined) && InvoiceOk(s, inv)
    ensures InvoiceOk(GiveUpInvoiceAct(s, inv, fault), inv) && s.invoices[inv].status == Draft
  {
  }

  lemma GiveUpInvoiceStep(s: State, inv: InvoiceId, fault: bool)
    requires Inv(s)
    ensures Inv(GiveUpInvoiceAct(s, inv, fault)) && Evolves(s, GiveUpInvoiceAct(s, inv, fault))
  {
    hide Inv, Evolves, InvoiceOk, SubOk;
    if !AtStage(s, inv, Declined) {
      QuietStep(s, s);
    } else {
      InvoiceHolds(s, inv);
      InvoiceGivenUp(s, inv, fault);
      InvoiceStep(s, GiveUpInvoiceAct(s, inv, fault), inv);
    }
  }

  lemma SubGivenUp(s: State, s': State, inv: InvoiceId, k: SubId)
    requires s' == GiveUpSubscriptionAct(s, inv, false) && AtStage(s, inv, Closed) && k == s.invoices[inv].sub
    requires InvoiceOk(s, inv) && SubOk(s, k)
    ensures k in s'.subs && SubEvolves(s.subs[k], s'.subs[k]) && SubOk(s', k) && InvoiceOk(s', inv)
  {
    hide Chain, PaidFor, Seconds;
  }

  lemma GiveUpSubscriptionStep(s: State, inv: InvoiceId, fault: bool)
    requires Inv(s)
    ensures Inv(GiveUpSubscriptionAct(s, inv, fault)) && Evolves(s, GiveUpSubscriptionAct(s, inv, fault))
  {
    hide SubsOk, InvoicesOk, SubOk, InvoiceOk, PaidFor, SubEvolves, SubsEvolve, HistoryEvolves, InvoicesEvolve,
         PaymentsEvolve;
    var s' := GiveUpSubscriptionAct(s, inv, fault);
    Same(s);
    if !AtStage(s, inv, Closed) || fault {
      QuietStep(s, s');
    } else {
      var k := s.invoices[inv].sub;
      InvoiceHolds(s, inv);
      SubAmount(s, k);
      SubGivenUp(s, s', inv, k);
      SubsKept(s, s', k);
      InvoicesKept(s, s', inv);
      OneSubEvolves(s.subs, k, s'.subs[k]);
    }
  }

  lemma SubAmount(s: State, k: SubId)
    requires Inv(s) && k in s.subs
    ensures s.subs[k].amount > 0 && k in s.history && s.history.Keys == s.subs.Keys && SubOk(s, k)
  {
  }

  lemma OtherPaid(invoices: map<InvoiceId, Invoice>, inv: InvoiceId, i: Invoice, k: SubId)
    requires inv in invoices && i.sub == invoices[inv].sub && i.sub != k
    ensures PaidFor(invoices[inv := i], k) == PaidFor(invoices, k)
  {
  }

  lemma SubRenewed(s: State, s': State, inv: InvoiceId, k: SubId)
    requires Extends(s, inv) && s' == RenewAct(s, inv)
    requires inv in s.invoices && k == s.invoices[inv].sub && InvoiceOk(s, inv) && k in s.subs && SubOk(s, k)
    ensures k in s'.subs && k in s'.history && SubEvolves(s.subs[k], s'.subs[k]) && SubOk(s', k)
  {
    ChainGrows(s.subs[k].interval, s.history[k]);
    ChainEnd(s.subs[k].interval, s.history[k]);
    PlusAdvances(s.subs[k].interval, s.subs[k].end);
    OnePaid(s.invoices, inv, s'.invoices[inv], k);
    hide Chain, Plus, Seconds, ValidStamp, PaidFor;
  }

  lemma InvoicePaid(s: State, s': State, inv: InvoiceId)
    requires Extends(s, inv) && s' == RenewAct(s, inv) && InvoiceOk(s, inv)
    ensures InvoiceOk(s', inv) && s.invoices[inv].status == Draft
  {
    hide Plus;
  }

  lemma Extended(s: State, inv: InvoiceId)
    requires Inv(s) && Extends(s, inv)
    ensures Inv(RenewAct(s, inv)) && Evolves(s, RenewAct(s, inv))
  {
    hide SubsOk, Plus, InvoicesOk, SubOk, InvoiceOk, PaidFor, SubEvolves, SubsEvolve, HistoryEvolves, InvoicesEvolve,
         PaymentsEvolve;
    var s', k := RenewAct(s, inv), s.invoices[inv].sub;
    Same(s);
    InvoiceHolds(s, inv);
    SubAmount(s, k);
    SubRenewed(s, s', inv, k);
    InvoicePaid(s, s', inv);
    forall x | x in s.subs && x != k ensures PaidFor(s'.invoices, x) == PaidFor(s.invoices, x) {
      OtherPaid(s.invoices, inv, s'.invoices[inv], x);
    }
    SubsKept(s, s', k);
    InvoicesKept(s, s', inv);
    OneSubEvolves(s.subs, k, s'.subs[k]);
    OneHistoryEvolves(s.history, k, s'.history[k]);
    OneInvoiceEvolves(s.invoices, inv, s'.invoices[inv]);
  }

  lemma ExtendStep(s: State, inv: InvoiceId, fault: bool)
    requires Inv(s)
    ensures Inv(ExtendAct(s, inv, fault)) && Evolves(s, ExtendAct(s, inv, fault))
  {
    hide Inv, Evolves, Extends, RenewAct;
    QuietStep(s, s);
    if inv in s.charges {
      QuietStep(s, Drop(s, inv));
      if Extends(s, inv) { Extended(s, inv); }
    }
  }

  lemma Step(s: State, a: Action)
    requires Inv(s)
    ensures Inv(Apply(s, a)) && Evolves(s, Apply(s, a))
  {
    hide Inv, Evolves, SubscribeAct, DraftAct, PayAct, GiveUpInvoiceAct, GiveUpSubscriptionAct, ExtendAct;
    match a
    case Subscribe(k, interval, amount, at) => SubscribeStep(s, k, interval, amount, at);
    case DraftInvoice(w, k, inv) => DraftStep(s, w, k, inv);
    case Pay(inv, charged, reply) => PayStep(s, inv, charged, reply);
    case GiveUpInvoice(inv, fault) => GiveUpInvoiceStep(s, inv, fault);
    case GiveUpSubscription(inv, fault) => GiveUpSubscriptionStep(s, inv, fault);
    case Extend(inv, fault) => ExtendStep(s, inv, fault);
    case _ => QuietStep(s, Apply(s, a));
  }

  // ----- whole runs -----

  lemma {:induction false} ExecAppend(s: State, a: seq<Action>, b: seq<Action>)
    ensures Exec(s, a + b) == Exec(Exec(s, a), b)
    decreases |b|
  {
    if b == [] {
      assert a + b == a;
    } else {
      assert (a + b)[..|a + b| - 1] == a + b[..|b| - 1];
      ExecAppend(s, a, b[..|b| - 1]);
    }
  }

  lemma {:induction false} ExecKeeps(s: State, acts: seq<Action>)
    requires Inv(s)
    ensures Inv(Exec(s, acts))
  {
    if acts != [] {
      ExecKeeps(s, acts[..|acts| - 1]);
      Step(Exec(s, acts[..|acts| - 1]), acts[|acts| - 1]);
    }
  }

  lemma {:induction false} Always(s: State, acts: seq<Action>)
    requires Initial(s)
    ensures Inv(Exec(s, acts))
  {
    if acts != [] {
      Always(s, acts[..|acts| - 1]);
      Step(Exec(s, acts[..|acts| - 1]), acts[|acts| - 1]);
    }
  }

  lemma EvolvesOn(a: State, b: State, c: State)
    requires Evolves(a, b) && Evolves(b, c)
    ensures Evolves(a, c)
  {
    hide Seconds;
    assert SubsEvolve(a.subs, c.subs);
  }

  lemma {:induction false} ExecEvolves(s: State, acts: seq<Action>)
    requires Inv(s)
    ensures Evolves(s, Exec(s, acts))
  {
    hide Inv, Apply;
    if acts == [] {
      Same(s);
    } else {
      var before := acts[..|acts| - 1];
      ExecEvolves(s, before);
      ExecKeeps(s, before);
      Step(Exec(s, before), acts[|acts| - 1]);
      hide Evolves;
      EvolvesOn(s, Exec(s, before), Exec(s, acts));
    }
  }

  lemma NothingUndone(s: State, first: seq<Action>, rest: seq<Action>)
    requires Initial(s)
    ensures Evolves(Exec(s, first), Exec(s, first + rest))
  {
    hide Inv, Evolves, Exec;
    Always(s, first);
    ExecAppend(s, first, rest);
    ExecEvolves(Exec(s, first), rest);
  }

  /** In every run, with any number of workers: the period columns form a gapless chain, and the end is the
      first end renewed once per paid invoice. */
  lemma PeriodsFollowPaidInvoices(s: State, acts: seq<Action>, k: SubId)
    requires Initial(s) && k in Exec(s, acts).subs
    ensures var t := Exec(s, acts);
      && k in t.history && Chain(t.subs[k].interval, t.history[k])
      && t.subs[k].end == PlusTimes(t.subs[k].interval, t.history[k][0].end, |PaidFor(t.invoices, k)|)
      && (PaidFor(t.invoices, k) != {} ==>
            t.subs[k].start == PlusTimes(t.subs[k].interval, t.history[k][0].end, |PaidFor(t.invoices, k)| - 1))
  {
    Always(s, acts);
    assert SubOk(Exec(s, acts), k);
  }

  /** A paid invoice has a payment of its own, taken for it and for the subscription's amount. */
  lemma PaidByItsOwnPayment(s: State, acts: seq<Action>, i: InvoiceId, j: InvoiceId)
    requires Initial(s)
    requires var t := Exec(s, acts);
      && i in t.invoices && j in t.invoices
      && t.invoices[i].status == Paid && t.invoices[j].status == Paid
    ensures var t := Exec(s, acts);
      && t.invoices[i].payment.Some? && t.invoices[i].sub in t.subs
      && Charged(t.payments, t.invoices[i].payment.value, i, t.subs[t.invoices[i].sub].amount)
      && (t.invoices[i].payment == t.invoices[j].payment ==> i == j)
  {
    Always(s, acts);
    InvoiceHolds(Exec(s, acts), i);
    InvoiceHolds(Exec(s, acts), j);
  }

  // ----- payments and renewals -----

  /** A payment was taken for an invoice whose charge is past the gateway, for the invoice's amount. */
  predicate TakenOk(s: State, p: PaymentId)
    requires p in s.payments
  {
    var inv := s.payments[p].invoice;
    && inv in s.invoices && inv in s.charges && !s.charges[inv].Drafted?
       && s.payments[p].amount == s.invoices[inv].amount
  }

  ghost predicate PaymentsOk(s: State) {
    && (forall p :: p in s.payments ==> TakenOk(s, p))
    && (forall p, q :: p in s.payments && q in s.payments && s.payments[p].invoice == s.payments[q].invoice ==> p == q)
  }

  /** Steps that take no payment. */
  lemma PaymentsSame(s: State, s': State)
    requires PaymentsOk(s) && s'.payments == s.payments
    requires forall i :: i in s.invoices ==> i in s'.invoices && s'.invoices[i].amount == s.invoices[i].amount
    requires forall i :: i in s.charges && !s.charges[i].Drafted? && i in s.invoices ==>
               i in s'.charges && !s'.charges[i].Drafted?
    ensures PaymentsOk(s')
  {
    forall p | p in s'.payments ensures TakenOk(s', p) { assert TakenOk(s, p); }
  }

  lemma PayTakes(s: State, inv: InvoiceId, charged: Option<PaymentId>, reply: Reply)
    requires PaymentsOk(s)
    ensures PaymentsOk(PayAct(s, inv, charged, reply))
  {
    var s' := PayAct(s, inv, charged, reply);
    forall p | p in s'.payments ensures TakenOk(s', p) { if p in s.payments { assert TakenOk(s, p); } }
    forall p, q | p in s'.payments && q in s'.payments && s'.payments[p].invoice == s'.payments[q].invoice
      ensures p == q
    {
      if p in s.payments { assert TakenOk(s, p); }
      if q in s.payments { assert TakenOk(s, q); }
    }
  }

  lemma DraftTakesNothing(s: State, w: WorkerId, k: SubId, inv: InvoiceId)
    requires PaymentsOk(s)
    ensures PaymentsOk(DraftAct(s, w, k, inv))
  {
    hide PaymentsOk;
    if w in s.picked && k in s.picked[w] && inv !in s.invoices && k in s.subs {
      PaymentsSame(s, DraftAct(s, w, k, inv));
    }
  }

  lemma ExtendTakesNothing(s: State, inv: InvoiceId, fault: bool)
    requires PaymentsOk(s)
    ensures PaymentsOk(ExtendAct(s, inv, fault))
  {
    hide PaymentsOk, Renewed;
    PaymentsSame(s, ExtendAct(s, inv, fault));
  }

  lemma PaymentsStep(s: State, a: Action)
    requires PaymentsOk(s)
    ensures PaymentsOk(Apply(s, a))
  {
    hide PaymentsOk, Due, GoPlus, ValidStamp, DraftAct, PayAct, ExtendAct;
    match a
    case Pay(inv, charged, reply) => PayTakes(s, inv, charged, reply);
    case DraftInvoice(w, k, inv) => DraftTakesNothing(s, w, k, inv);
    case Extend(inv, fault) => ExtendTakesNothing(s, inv, fault);
    case _ => PaymentsSame(s, Apply(s, a));
  }

  lemma {:induction false} AlwaysPayments(s: State, acts: seq<Action>)
    requires Initial(s)
    ensures PaymentsOk(Exec(s, acts))
  {
    if acts != [] {
      AlwaysPayments(s, acts[..|acts| - 1]);
      PaymentsStep(Exec(s, acts[..|acts| - 1]), acts[|acts| - 1]);
    }
  }

  /** The payments taken from the customer of subscription k. */
  function TakenFor(s: State, k: SubId): set<PaymentId> {
    set p | p in s.payments && s.payments[p].invoice in s.invoices && s.invoices[s.payments[p].invoice].sub == k
  }

  /** Those that no paid invoice, and so no renewal, stands for. */
  function Unrenewed(s: State, k: SubId): set<PaymentId> {
    set p | p in TakenFor(s, k) && s.invoices[s.payments[p].invoice].status != Paid
  }

  lemma {:induction false} SameSize(payments: map<PaymentId, Taken>, a: set<PaymentId>, b: set<InvoiceId>)
    requires forall p :: p in a ==> p in payments && payments[p].invoice in b
    requires forall p, q :: p in a && q in a && payments[p].invoice == payments[q].invoice ==> p == q
    requires forall i :: i in b ==> exists p :: p in a && payments[p].invoice == i
    ensures |a| == |b|
  {
    if a == {} {
      assert b == {};
    } else {
      var p :| p in a;
      var i := payments[p].invoice;
      forall j | j in b - {i} ensures exists q :: q in a - {p} && payments[q].invoice == j {
        var q :| q in a && payments[q].invoice == j;
        assert q in a - {p};
      }
      SameSize(payments, a - {p}, b - {i});
    }
  }

  /** In every run the payments taken from a subscription are one for each paid invoice plus the unrenewed
      ones, each for the subscription's amount and at most one per invoice. So the customer paid once for
      every renewal if and only if no payment is unrenewed. */
  lemma ChargesAccounted(s: State, acts: seq<Action>, k: SubId)
    requires Initial(s) && k in Exec(s, acts).subs
    ensures var t := Exec(s, acts);
      && |TakenFor(t, k)| == |PaidFor(t.invoices, k)| + |Unrenewed(t, k)|
      && (forall p :: p in TakenFor(t, k) ==> t.payments[p].amount == t.subs[k].amount)
      && (forall p, q ::
            p in TakenFor(t, k) && q in TakenFor(t, k) && t.payments[p].invoice == t.payments[q].invoice ==> p == q)
      && k in t.history && (|TakenFor(t, k)| == |t.history[k]| - 1 <==> Unrenewed(t, k) == {})
  {
    Always(s, acts);
    AlwaysPayments(s, acts);
    AccountedAt(Exec(s, acts), k);
  }

  lemma TakenAmount(t: State, k: SubId, p: PaymentId)
    requires InvoicesOk(t) && PaymentsOk(t) && k in t.subs && p in TakenFor(t, k)
    ensures t.payments[p].amount == t.subs[k].amount
  {
    assert TakenOk(t, p) && InvoiceOk(t, t.payments[p].invoice);
  }

  lemma PaidWasTaken(t: State, k: SubId, i: InvoiceId) returns (p: PaymentId)
    requires InvoicesOk(t) && i in PaidFor(t.invoices, k)
    ensures p in TakenFor(t, k) - Unrenewed(t, k) && t.payments[p].invoice == i
  {
    assert InvoiceOk(t, i);
    p := t.invoices[i].payment.value;
  }

  lemma AccountedAt(t: State, k: SubId)
    requires Inv(t) && PaymentsOk(t) && k in t.subs
    ensures |TakenFor(t, k)| == |PaidFor(t.invoices, k)| + |Unrenewed(t, k)|
    ensures forall p :: p in TakenFor(t, k) ==> t.payments[p].amount == t.subs[k].amount
    ensures k in t.history && |t.history[k]| - 1 == |PaidFor(t.invoices, k)|
  {
    hide Chain, InvoicesOk, PaymentsOk, PaidFor, TakenOk;
    SubAmount(t, k);
    hide SubsOk;
    forall p | p in TakenFor(t, k) ensures t.payments[p].amount == t.subs[k].amount { TakenAmount(t, k, p); }
    RenewedMatch(t, k);
    hide TakenFor, SubOk;
    assert TakenFor(t, k) == (TakenFor(t, k) - Unrenewed(t, k)) + Unrenewed(t, k);
  }

  /** The other payments are one for each paid invoice. */
  lemma RenewedMatch(t: State, k: SubId)
    requires InvoicesOk(t) && PaymentsOk(t)
    ensures |TakenFor(t, k) - Unrenewed(t, k)| == |PaidFor(t.invoices, k)|
  {
    hide InvoicesOk, TakenOk;
    var renewed := TakenFor(t, k) - Unrenewed(t, k);
    forall i | i in PaidFor(t.invoices, k) ensures exists p :: p in renewed && t.payments[p].invoice == i {
      var p := PaidWasTaken(t, k, i);
    }
    SameSize(t.payments, renewed, PaidFor(t.invoices, k));
  }

  /** Step n of the run commits the renewal paid for by invoice inv. */
  ghost predicate RenewsAt(s: State, acts: seq<Action>, n: nat, inv: InvoiceId) {
    n < |acts| && acts[n] == Extend(inv, false) && Extends(Exec(s, acts[..n]), inv)
  }

  /** A payment is unrenewed exactly as long as no step of the run has committed the renewal of its invoice. */
  lemma {:induction false} UnrenewedUntilExtended(s: State, acts: seq<Action>, inv: InvoiceId)
    requires Initial(s) && inv in Exec(s, acts).invoices
    ensures Exec(s, acts).invoices[inv].status == Paid <==> exists n: nat :: RenewsAt(s, acts, n, inv)
  {
    if acts == [] {
      assert false;
    } else {
      var before, a := acts[..|acts| - 1], acts[|acts| - 1];
      Always(s, before);
      hide Initial, Inv, Apply, Extends, RenewsAt;
      RenewedBefore(s, acts, inv);
      PaidStep(Exec(s, before), a, inv);
      if inv in Exec(s, before).invoices {
        UnrenewedUntilExtended(s, before, inv);
      } else {
        NotYetRenewed(s, before, inv);
      }
    }
  }

  lemma NotYetRenewed(s: State, acts: seq<Action>, inv: InvoiceId)
    requires Initial(s) && inv !in Exec(s, acts).invoices
    ensures forall n: nat :: !RenewsAt(s, acts, n, inv)
    ensures !Extends(Exec(s, acts), inv)
  {
    forall n: nat ensures !RenewsAt(s, acts, n, inv) { if n < |acts| { NotYetThere(s, acts, n, inv); } }
  }

  lemma RenewedBefore(s: State, acts: seq<Action>, inv: InvoiceId)
    requires acts != []
    ensures var before, a := acts[..|acts| - 1], acts[|acts| - 1];
      (exists n: nat :: RenewsAt(s, acts, n, inv)) <==>
        (exists n: nat :: RenewsAt(s, before, n, inv)) || (a == Extend(inv, false) && Extends(Exec(s, before), inv))
  {
    hide Exec, Extends;
    var m, before := |acts| - 1, acts[..|acts| - 1];
    assert forall n :: 0 <= n < m ==> before[..n] == acts[..n];
    forall n | 0 <= n < m ensures RenewsAt(s, acts, n, inv) <==> RenewsAt(s, before, n, inv) {}
    assert RenewsAt(s, acts, m, inv) <==> acts[m] == Extend(inv, false) && Extends(Exec(s, before), inv);
  }

  lemma NotYetThere(s: State, acts: seq<Action>, n: nat, inv: InvoiceId)
    requires Initial(s) && n <= |acts| && inv !in Exec(s, acts).invoices
    ensures inv !in Exec(s, acts[..n]).invoices
    ensures !Extends(Exec(s, acts[..n]), inv)
  {
    hide Initial, Exec;
    assert acts == acts[..n] + acts[n..];
    NothingUndone(s, acts[..n], acts[n..]);
  }

  lemma PaidStep(s: State, a: Action, inv: InvoiceId)
    requires Inv(s) && inv in Apply(s, a).invoices
    ensures inv !in s.invoices ==> Apply(s, a).invoices[inv].status != Paid
    ensures inv in s.invoices ==>
              (Apply(s, a).invoices[inv].status == Paid <==>
               s.invoices[inv].status == Paid || (a == Extend(inv, false) && Extends(s, inv)))
  {
    if inv in s.invoices { InvoiceHolds(s, inv); }
    hide Inv, InvoiceOk, SubscribeAct, DraftAct, PayAct, GiveUpInvoiceAct, GiveUpSubscriptionAct, ExtendAct;
    if a.Extend? {
      PaidByExtend(s, a.inv, a.fault, inv);
    } else {
      PaidByNoOther(s, a, inv);
    }
  }

  lemma PaidByExtend(s: State, i: InvoiceId, fault: bool, inv: InvoiceId)
    requires inv in ExtendAct(s, i, fault).invoices
    ensures inv in s.invoices
    ensures ExtendAct(s, i, fault).invoices[inv].status == Paid <==>
            s.invoices[inv].status == Paid || (i == inv && !fault && Extends(s, inv))
  {
    hide Renewed;
  }

  lemma PaidByNoOther(s: State, a: Action, inv: InvoiceId)
    requires inv in Apply(s, a).invoices && !a.Extend? && (inv in s.invoices ==> inv in s.charges && InvoiceOk(s, inv))
    ensures inv !in s.invoices ==> Apply(s, a).invoices[inv].status == Draft
    ensures inv in s.invoices ==> (Apply(s, a).invoices[inv].status == Paid <==> s.invoices[inv].status == Paid)
  {
    hide Due, GoPlus, ValidStamp, Charged;
  }

  /** past_due is never left, and such a subscription is never selected again. */
  lemma PastDueForGood(s: State, first: seq<Action>, rest: seq<Action>, k: SubId)
    requires Initial(s) && k in Exec(s, first).subs && Exec(s, first).subs[k].status == PastDue
    ensures var t := Exec(s, first + rest);
      k in t.subs && t.subs[k].status == PastDue && forall chosen :: Selectable(t, chosen) ==> k !in chosen
  {
    NothingUndone(s, first, rest);
  }
}
