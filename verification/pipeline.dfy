/** The money pipeline as a step system. Gateway, ledger consumer, settlement scheduler, settlement
    consumer and admin service change the same tables and talk through one event log. Any consumer
    may be handed any logged event, any number of times, at any moment: that covers every
    interleaving, crash and redelivery. A step whose guard or transaction fails changes nothing. */
module Pipeline {
  import opened Sums
  import opened Schema
  import opened Effects

  /** What the gateway remembers of a request between its separate statements. */
  datatype Request = Request(merchant: MerchantId, amount: int, currency: Currency)
  datatype Phase = Inserted(req: Request) | Marked(req: Request, outcome: Status)

  datatype State = State(now: nat, tables: Tables, phases: map<PaymentId, Phase>, log: seq<Event>)

  datatype Action =
    | Wait(seconds: nat)
    | ChangeSchedule(m: MerchantId, schedule: Schedule)
    | AdminSettle(m: MerchantId, s: SettlementId, group: nat)
    | Insert(p: PaymentId, req: Request, key: Key, token: Token)
    | Mark(p: PaymentId, approved: bool)
    | Publish(p: PaymentId)
    | Notify(p: PaymentId, amount: int, currency: Currency)
    | Post(i: nat, postIds: LedgerIds)
    | Poll(keys: seq<GroupKey>)
    | Settle(i: nat, settleIds: SettleIds)
    | IssueRefund(m: MerchantId, p: PaymentId, amount: int, r: RefundId)

  ghost predicate Initial(s: State) {
    && s.tables.payments == map[] && s.tables.accounts == map[] && s.tables.settlements == map[]
    && s.tables.refunds == map[] && s.tables.ledger == []
    && s.phases == map[] && s.log == []
  }

  /** uid.Generate never returns a value twice; group names carry no constraint in the schema. */
  ghost predicate UnusedGroup(ledger: seq<Entry>, g: GroupId) {
    forall i :: 0 <= i < |ledger| ==> ledger[i].group != g
  }

  /** The groups a poll manages to publish: at most a hundred different due groups whose sum the
      scan can hold in 64 bits. Which ones, and how many of them get through, is not determined. */
  ghost predicate CanPublish(t: Tables, now: nat, keys: seq<GroupKey>) {
    && |keys| <= POLL_LIMIT && Distinct(keys)
    && forall i :: 0 <= i < |keys| ==>
         keys[i] in DueKeys(t, now) && Total(t.payments, Group(t, now, keys[i])) <= MAX_INT64
  }

  function CreatedEvent(p: PaymentId, ph: Phase): Event
    requires ph.Marked?
  {
    Event(ph.outcome, Some(p), {}, ph.req.merchant, ph.req.amount, ph.req.currency)
  }

  ghost function Adopt(s: State, t: Option<Tables>): State {
    if t.Some? then s.(tables := t.value) else s
  }

  /** A payment row as the gateway inserts it. */
  function NewRow(req: Request, key: Key, now: nat): Payment {
    Payment(req.merchant, req.amount, req.currency, Created, key, now, None)
  }

  function InsertAct(s: State, p: PaymentId, req: Request, key: Key, token: Token): State {
    var t' := InsertPayment(s.tables, p, NewRow(req, key, s.now), token);
    if t'.Some? then s.(tables := t'.value, phases := s.phases[p := Inserted(req)]) else s
  }

  function MarkAct(s: State, p: PaymentId, approved: bool): State {
    var t := s.tables;
    if p in s.phases && s.phases[p].Inserted? && p in t.payments then
      var outcome := if approved then Created else Failed;
      s.(tables := t.(payments := t.payments[p := t.payments[p].(status := outcome)]),
         phases := s.phases[p := Marked(s.phases[p].req, outcome)])
    else s
  }

  ghost function PostAct(s: State, i: nat, ids: LedgerIds): State {
    if i < |s.log| && UnusedGroup(s.tables.ledger, Txg(ids.group))
      then Adopt(s, PostEffect(s.tables, s.now, s.log[i], ids)) else s
  }

  ghost function SettleAct(s: State, i: nat, ids: SettleIds): State {
    if i < |s.log| && UnusedGroup(s.tables.ledger, Txg(ids.group))
      then Adopt(s, SettleEffect(s.tables, s.now, s.log[i], ids)) else s
  }

  ghost function Apply(s: State, a: Action): State {
    var t := s.tables;
    match a
    case Wait(d) => s.(now := s.now + d)
    case ChangeSchedule(m, sch) =>
      if m in t.merchants then s.(tables := t.(merchants := t.merchants[m := sch])) else s
    case AdminSettle(m, sid, g) => Adopt(s, AdminSettleEffect(t, s.now, m, sid, g))
    case Insert(p, req, key, token) => InsertAct(s, p, req, key, token)
    case Mark(p, approved) => MarkAct(s, p, approved)
    case Publish(p) =>
      if p in s.phases && s.phases[p].Marked? then s.(log := s.log + [CreatedEvent(p, s.phases[p])]) else s
    case Notify(p, amount, c) => s.(log := s.log + [Event(Settled, Some(p), {}, 0, amount, c)])
    case Post(i, ids) => PostAct(s, i, ids)
    case Poll(keys) =>
      if CanPublish(t, s.now, keys) then s.(log := s.log + GroupEvents(t, s.now, keys)) else s
    case Settle(i, ids) => SettleAct(s, i, ids)
    case IssueRefund(m, p, amount, r) => Adopt(s, RefundEffect(t, m, p, amount, r))
  }

  /** The state after a run. */
  ghost function Exec(s: State, acts: seq<Action>): State {
    if acts == [] then s else Apply(Exec(s, acts[..|acts| - 1]), acts[|acts| - 1])
  }

  // ----- the invariant, part by part -----

  ghost predicate AccountsOk(accounts: map<AccountId, Account>) {
    && UniqueAccounts(accounts)
    && forall a :: a in accounts ==>
         if a == System then accounts[a].merchant.None? && accounts[a].kind == BankTransit
         else a.Generated? && accounts[a].merchant.Some? && accounts[a].kind != BankTransit
  }

  /** Positions i and i+1 are the two legs of one transaction. */
  predicate PairAt(ledger: seq<Entry>, i: nat)
    requires i + 1 < |ledger|
  {
    var d, c := ledger[i], ledger[i + 1];
    && d.kind == Debit && c.kind == Credit
    && d.group == c.group && d.payment == c.payment && d.amount == c.amount && d.currency == c.currency
  }

  ghost predicate PairsOk(ledger: seq<Entry>) {
    && |ledger| % 2 == 0
    && (forall i: nat :: i < |ledger| && i % 2 == 0 ==> PairAt(ledger, i))
    && (forall i, j :: 0 <= i < j < |ledger| && ledger[i].group == ledger[j].group ==> i % 2 == 0 && j == i + 1)
  }

  ghost predicate EntryOk(t: Tables, e: Entry) {
    && e.account in t.accounts && e.amount > 0
    && (e.account != System ==> t.accounts[e.account].currency == e.currency)
    && (e.group.RefundGroup? ==> e.group.refund in t.refunds)
    && (e.payment.Some? ==>
          && e.payment.value in t.payments
          && e.amount == t.payments[e.payment.value].amount
          && e.currency == t.payments[e.payment.value].currency
          && (e.kind == Credit ==>
              IsAccount(t.accounts, e.account, t.payments[e.payment.value].merchant, MerchantPayable, e.currency)))
  }

  ghost predicate EntriesOk(t: Tables) {
    forall i :: 0 <= i < |t.ledger| ==> EntryOk(t, t.ledger[i])
  }

  ghost predicate PaymentOk(s: State, p: PaymentId)
    requires p in s.tables.payments
  {
    var row := s.tables.payments[p];
    var posted := Postings(s.tables.ledger, p);
    && p in s.phases && row.merchant in s.tables.merchants && row.amount > 0 && row.updatedAt <= s.now
    && s.phases[p].req == Request(row.merchant, row.amount, row.currency)
    && (s.phases[p].Inserted? ==> row.status == Created)
    && (s.phases[p].Marked? ==> s.phases[p].outcome in {Created, Failed})
    && (row.status == Failed <==> s.phases[p].Marked? && s.phases[p].outcome == Failed)
    && row.status != Settled
    && (row.status in {Created, Failed} <==> posted == 0)
    && (posted == 0 ==> row.settlement.None?)
    && (row.status in {Processed, Refunded} ==> row.settlement.Some?)
    && (row.settlement.Some? ==>
          && row.settlement.value in s.tables.settlements
          && s.tables.settlements[row.settlement.value].merchant == row.merchant
          && s.tables.settlements[row.settlement.value].currency == row.currency)
  }

  ghost predicate PaymentsOk(s: State) {
    && s.phases.Keys == s.tables.payments.Keys
    && forall p :: p in s.tables.payments ==> PaymentOk(s, p)
  }

  /** In-flight agreement of one logged event with the tables. */
  ghost predicate EventOk(s: State, e: Event) {
    && (e.status == Created ==>
          && e.paymentId.Some? && e.paymentId.value in s.phases
          && s.phases[e.paymentId.value] == Marked(Request(e.merchant, e.amount, e.currency), Created))
    && (e.status == Initiated ==>
          && e.paymentIds != {} && e.amount == Total(s.tables.payments, e.paymentIds) && e.amount <= MAX_INT64
          && forall p :: p in e.paymentIds ==>
               && p in s.tables.payments
               && KeyOf(s.tables.payments[p]) == GroupKey(e.merchant, e.currency)
               && (s.tables.payments[p].settlement.Some? || s.tables.payments[p].status == Initiated))
  }

  ghost predicate EventsOk(s: State) {
    forall i :: 0 <= i < |s.log| ==> EventOk(s, s.log[i])
  }

  function Attached(payments: map<PaymentId, Payment>, sid: SettlementId): set<PaymentId> {
    set p | p in payments && payments[p].settlement == Some(sid)
  }

  ghost predicate SettlementOk(t: Tables, sid: SettlementId)
    requires sid in t.settlements
  {
    && Attached(t.payments, sid) != {}
    && Total(t.payments, Attached(t.payments, sid)) <= t.settlements[sid].amount
  }

  ghost predicate SettlementsOk(t: Tables) {
    forall sid :: sid in t.settlements ==> SettlementOk(t, sid)
  }

  ghost predicate RefundsOk(t: Tables) {
    && (forall r :: r in t.refunds ==>
          var f := t.refunds[r];
          && f.payment in t.payments && f.currency == LowerUsd
          && f.merchant == t.payments[f.payment].merchant && f.amount == t.payments[f.payment].amount
          && t.payments[f.payment].settlement.Some? && t.payments[f.payment].status != Processed)
    && (forall q, r :: q in t.refunds && r in t.refunds && t.refunds[q].payment == t.refunds[r].payment ==> q == r)
  }

  ghost predicate Inv(s: State) {
    && AccountsOk(s.tables.accounts) && PairsOk(s.tables.ledger) && EntriesOk(s.tables)
    && PaymentsOk(s) && EventsOk(s) && SettlementsOk(s.tables) && RefundsOk(s.tables)
  }

  // ----- what no step ever undoes -----

  ghost predicate Evolves(s: State, s': State) {
    && s.now <= s'.now && s.log <= s'.log && s.tables.ledger <= s'.tables.ledger
    && (forall p :: p in s.tables.payments ==>
        p in s'.tables.payments && RowEvolves(s.tables.payments[p], s'.tables.payments[p]))
    && (forall p :: p in s.phases && s.phases[p].Marked? ==> p in s'.phases && s'.phases[p] == s.phases[p])
    && (forall x :: x in s.tables.settlements ==>
        x in s'.tables.settlements && s'.tables.settlements[x] == s.tables.settlements[x])
    && (forall r :: r in s.tables.refunds ==> r in s'.tables.refunds && s'.tables.refunds[r] == s.tables.refunds[r])
    && (forall a :: a in s.tables.accounts ==> a in s'.tables.accounts && s'.tables.accounts[a] == s.tables.accounts[a])
    && s.tables.merchants.Keys <= s'.tables.merchants.Keys
  }

  /** Identity and amount never change, a settlement id is written once, and an initiated unsettled
      row stays that way until it is settled. */
  ghost predicate RowEvolves(a: Payment, b: Payment) {
    && b.merchant == a.merchant && b.amount == a.amount && b.currency == a.currency && b.key == a.key
    && a.updatedAt <= b.updatedAt
    && (a.settlement.Some? ==> b.settlement == a.settlement && (b.status == Processed ==> a.status == Processed))
    && (a.status == Initiated && a.settlement.None? ==> b.settlement.Some? || b.status == Initiated)
  }
}
