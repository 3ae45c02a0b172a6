/** What each handler does to the tables when its transaction commits; None when one of its
    statements cannot succeed or the handler leaves before the commit. The imperative handlers are
    proved against these functions, and the runs of the whole pipeline are made of them. */
module Effects {
  import opened Sums
  import opened Schema

  datatype LedgerIds = LedgerIds(payable: nat, group: nat)
  datatype SettleIds = SettleIds(settlement: SettlementId, payable: nat, bank: nat, group: nat)

  /** Find-or-create, as both consumers do it. */
  ghost function EnsureAccount(t: Tables, m: MerchantId, kind: AccountType, c: Currency, newId: nat): Option<Tables> {
    if FindAccount(t.accounts, m, kind, c).Some? then Some(t)
    else InsertAccount(t, Generated(newId), Account(Some(m), kind, c))
  }

  function EnsureSystem(t: Tables, c: Currency): Option<Tables> {
    if System in t.accounts then Some(t) else InsertAccount(t, System, Account(None, BankTransit, c))
  }

  function MarkInitiated(t: Tables, now: nat, p: PaymentId): Tables
    requires p in t.payments
  {
    t.(payments := t.payments[p := t.payments[p].(status := Initiated, updatedAt := now)])
  }

  // ----- ledger consumer -----

  ghost function PostEffect(t: Tables, now: nat, e: Event, ids: LedgerIds): Option<Tables> {
    if e.status != Created || e.paymentId.None? || e.paymentId.value !in t.payments then None
    else
      var p := e.paymentId.value;
      var m := t.payments[p].merchant;
      var t1 :- EnsureAccount(MarkInitiated(t, now, p), m, MerchantPayable, e.currency, ids.payable);
      var payable :- FindAccount(t1.accounts, m, MerchantPayable, e.currency);
      var t2 :- EnsureSystem(t1, e.currency);
      InsertPair(t2, Entry(Txg(ids.group), System, Some(p), Debit, e.amount, e.currency),
                     Entry(Txg(ids.group), payable, Some(p), Credit, e.amount, e.currency))
  }

  // ----- settlement consumer -----

  function Targets(e: Event): set<PaymentId> {
    if e.paymentIds != {} then e.paymentIds
    else if e.paymentId.Some? then {e.paymentId.value}
    else {}
  }

  /** The rows the guarded update touches. */
  function Hits(payments: map<PaymentId, Payment>, ids: set<PaymentId>): set<PaymentId> {
    set p | p in ids && p in payments && payments[p].settlement.None?
  }

  function Attach(payments: map<PaymentId, Payment>, now: nat, hits: set<PaymentId>,
                  s: SettlementId): map<PaymentId, Payment> {
    map p | p in payments ::
      if p in hits then payments[p].(settlement := Some(s), status := Processed, updatedAt := now) else payments[p]
  }

  ghost function InsertPair(t: Tables, d: Entry, c: Entry): Option<Tables> {
    var t1 :- InsertEntry(t, d);
    InsertEntry(t1, c)
  }

  /** Both accounts, then the pair. */
  ghost function BookEffect(t: Tables, e: Event, ids: SettleIds): Option<Tables> {
    var t1 :- EnsureAccount(t, e.merchant, MerchantPayable, e.currency, ids.payable);
    var payable :- FindAccount(t1.accounts, e.merchant, MerchantPayable, e.currency);
    var t2 :- EnsureAccount(t1, e.merchant, MerchantSettlement, e.currency, ids.bank);
    var bank :- FindAccount(t2.accounts, e.merchant, MerchantSettlement, e.currency);
    InsertPair(t2, Entry(Txg(ids.group), payable, None, Debit, e.amount, e.currency),
                   Entry(Txg(ids.group), bank, None, Credit, e.amount, e.currency))
  }

  ghost function SettleEffect(t: Tables, now: nat, e: Event, ids: SettleIds): Option<Tables> {
    if e.status != Initiated then None
    else
      var t1 :- InsertSettlement(t, ids.settlement, Settlement(e.merchant, e.amount, e.currency));
      var hits := Hits(t1.payments, Targets(e));
      if hits == {} then None
      else
        var t2 := t1.(payments := Attach(t1.payments, now, hits, ids.settlement));
        BookEffect(t2, e, ids)
  }

  // ----- admin: refunds -----

  ghost function RefundEffect(t: Tables, m: MerchantId, p: PaymentId, amount: int, r: RefundId): Option<Tables> {
    if p !in t.payments || t.payments[p].merchant != m || t.payments[p].status != Processed
      || amount != t.payments[p].amount
    then None
    else
      var t1 :- InsertRefund(t, r, Refund(p, m, amount, LowerUsd));
      var t2 := t1.(payments := t1.payments[p := t1.payments[p].(status := Refunded)]);
      var payable :- FindAccount(t2.accounts, m, MerchantPayable, LowerUsd);
      InsertPair(t2, Entry(RefundGroup(r), payable, None, Debit, amount, LowerUsd),
                     Entry(RefundGroup(r), System, None, Credit, amount, LowerUsd))
  }

  // ----- admin: settlement on switching a merchant to instant -----

  function Pending(payments: map<PaymentId, Payment>, m: MerchantId): set<PaymentId> {
    set p | p in payments && payments[p].merchant == m && payments[p].status == Initiated
      && payments[p].settlement.None?
  }

  ghost function AdminSettleEffect(t: Tables, now: nat, m: MerchantId, s: SettlementId, group: nat): Option<Tables> {
    var hits := Pending(t.payments, m);
    if hits == {} then None
    else
      var amount := Total(t.payments, hits);
      if amount > MAX_INT64 then None
      else
        var t1 :- InsertSettlement(t, s, Settlement(m, amount, UpperUsd));
        var t2 := t1.(payments := Attach(t1.payments, now, hits, s));
        InsertPair(t2, Entry(AdminGroup(group), AdminPayable(m), None, Debit, amount, Inr),
                       Entry(AdminGroup(group), AdminSettlement(m), None, Credit, amount, Inr))
  }

  // ----- settlement scheduler -----

  /** Seconds a payment must have been left alone before it is due. */
  function Delay(s: Schedule): nat {
    match s
    case Instant => 0
    case OneHour => 3600
    case TwelveHours => 43200
    case TwentyFourHours => 86400
    case Daily | Weekly | Biweekly | Monthly => 172800
  }

  datatype GroupKey = GroupKey(merchant: MerchantId, currency: Currency)

  function KeyOf(row: Payment): GroupKey {
    GroupKey(row.merchant, row.currency)
  }

  /** The WHERE clause of the poll, with its join on the merchant. */
  predicate DueRow(merchants: map<MerchantId, Schedule>, now: nat, row: Payment) {
    && row.status == Initiated && row.settlement.None?
    && row.merchant in merchants
    && (merchants[row.merchant] == Instant || row.updatedAt + Delay(merchants[row.merchant]) <= now)
  }

  /** How long a merchant on this schedule is made to wait, as it reads: not at all, an hour, twelve hours, a day, or,
      for the four schedules of old, two days. */
  predicate WaitedEnough(schedule: Schedule, seconds: int) {
    && (schedule == OneHour ==> seconds >= 3600)
    && (schedule == TwelveHours ==> seconds >= 43200)
    && (schedule == TwentyFourHours ==> seconds >= 86400)
    && (schedule in {Daily, Weekly, Biweekly, Monthly} ==> seconds >= 172800)
  }

  predicate Ready(merchants: map<MerchantId, Schedule>, now: nat, row: Payment) {
    && row.status == Initiated && row.settlement.None? && row.merchant in merchants
    && WaitedEnough(merchants[row.merchant], now - row.updatedAt)
  }

  lemma DueIsReady(merchants: map<MerchantId, Schedule>, now: nat, row: Payment)
    ensures DueRow(merchants, now, row) <==> Ready(merchants, now, row)
  {
  }

  /** A group holds exactly the ready payments of its merchant and currency, and each of them is in one. */
  lemma GroupIsReady(t: Tables, now: nat, k: GroupKey)
    ensures forall p :: p in Group(t, now, k) <==>
              p in t.payments && KeyOf(t.payments[p]) == k && Ready(t.merchants, now, t.payments[p])
    ensures k in DueKeys(t, now) <==>
            exists p :: p in t.payments && KeyOf(t.payments[p]) == k && Ready(t.merchants, now, t.payments[p])
  {
    forall p | p in t.payments
      ensures DueRow(t.merchants, now, t.payments[p]) <==> Ready(t.merchants, now, t.payments[p])
    {
      DueIsReady(t.merchants, now, t.payments[p]);
    }
    hide DueRow, Ready;
  }

  function DueSet(t: Tables, now: nat): set<PaymentId> {
    set p | p in t.payments && DueRow(t.merchants, now, t.payments[p])
  }

  function Group(t: Tables, now: nat, k: GroupKey): set<PaymentId> {
    set p | p in t.payments && DueRow(t.merchants, now, t.payments[p]) && KeyOf(t.payments[p]) == k
  }

  function DueKeys(t: Tables, now: nat): set<GroupKey> {
    set p | p in t.payments && DueRow(t.merchants, now, t.payments[p]) :: KeyOf(t.payments[p])
  }

  ghost function GroupEvent(t: Tables, now: nat, k: GroupKey): Event {
    var ids := Group(t, now, k);
    Event(Initiated, None, ids, k.merchant, Total(t.payments, ids), k.currency)
  }

  const POLL_LIMIT: nat := 100

  /** The events a poll appends when it publishes one per listed group. */
  ghost function GroupEvents(t: Tables, now: nat, keys: seq<GroupKey>): seq<Event> {
    seq(|keys|, i requires 0 <= i < |keys| => GroupEvent(t, now, keys[i]))
  }

  ghost predicate Distinct<T>(s: seq<T>) {
    forall i, j :: 0 <= i < j < |s| ==> s[i] != s[j]
  }

  // ----- what the effects amount to -----

  /** Accounts are only added, each under a generated name or the system name, and never a second
      one for the same merchant, type and currency. */
  ghost predicate AccountsGrow(before: map<AccountId, Account>, after: map<AccountId, Account>) {
    && (forall a :: a in before ==> a in after && after[a] == before[a])
    && (UniqueAccounts(before) ==> UniqueAccounts(after))
    && (forall a :: a in after && a !in before ==>
          if a == System then after[a].merchant.None? && after[a].kind == BankTransit
          else a.Generated? && after[a].merchant.Some? && after[a].kind != BankTransit)
  }

  lemma EnsureAccountShape(t: Tables, m: MerchantId, kind: AccountType, c: Currency, newId: nat)
    requires kind != BankTransit
    requires EnsureAccount(t, m, kind, c, newId).Some?
    ensures var t' := EnsureAccount(t, m, kind, c, newId).value;
            && t' == t.(accounts := t'.accounts)
            && AccountsGrow(t.accounts, t'.accounts)
            && FindAccount(t'.accounts, m, kind, c).Some?
  {
    if FindAccount(t.accounts, m, kind, c).None? {
      var t' := EnsureAccount(t, m, kind, c, newId).value;
      assert IsAccount(t'.accounts, Generated(newId), m, kind, c);
    }
  }

  lemma EnsureSystemShape(t: Tables, c: Currency)
    requires EnsureSystem(t, c).Some?
    ensures var t' := EnsureSystem(t, c).value;
            && t' == t.(accounts := t'.accounts)
            && AccountsGrow(t.accounts, t'.accounts)
            && System in t'.accounts
            && (System !in t.accounts ==> t'.accounts[System] == Account(None, BankTransit, c))
  {
  }

  /** A committed posting: the row becomes initiated, one balanced pair is appended from the system account, opened in
      the event's currency if need be, to the merchant's payable account, accounts only grow, and nothing else moves. */
  lemma PostShape(t: Tables, now: nat, e: Event, ids: LedgerIds) returns (payable: AccountId)
    requires PostEffect(t, now, e, ids).Some?
    ensures var t' := PostEffect(t, now, e, ids).value;
            && e.status == Created && e.paymentId.Some? && e.paymentId.value in t.payments && e.amount > 0
            && var p := e.paymentId.value;
            && t'.payments == t.payments[p := t.payments[p].(status := Initiated, updatedAt := now)]
            && t' == t.(payments := t'.payments, accounts := t'.accounts, ledger := t'.ledger)
            && AccountsGrow(t.accounts, t'.accounts)
            && System in t'.accounts
            && (System !in t.accounts ==> t'.accounts[System] == Account(None, BankTransit, e.currency))
            && IsAccount(t'.accounts, payable, t.payments[p].merchant, MerchantPayable, e.currency)
            && t'.ledger == t.ledger + [Entry(Txg(ids.group), System, Some(p), Debit, e.amount, e.currency),
                                        Entry(Txg(ids.group), payable, Some(p), Credit, e.amount, e.currency)]
  {
    var p := e.paymentId.value;
    var m := t.payments[p].merchant;
    var t0 := MarkInitiated(t, now, p);
    EnsureAccountShape(t0, m, MerchantPayable, e.currency, ids.payable);
    var t1 := EnsureAccount(t0, m, MerchantPayable, e.currency, ids.payable).value;
    payable := FindAccount(t1.accounts, m, MerchantPayable, e.currency).value;
    EnsureSystemShape(t1, e.currency);
    var t2 := EnsureSystem(t1, e.currency).value;
    var debit := Entry(Txg(ids.group), System, Some(p), Debit, e.amount, e.currency);
    var credit := Entry(Txg(ids.group), payable, Some(p), Credit, e.amount, e.currency);
    assert t2.ledger + [debit] + [credit] == t2.ledger + [debit, credit];
  }

  /** A committed settlement: one settlement row for the event's amount, exactly the unsettled
      targets (at least one) attached to it, one balanced pair for the event's amount. */
  lemma SettleShape(t: Tables, now: nat, e: Event, ids: SettleIds) returns (payable: AccountId, bank: AccountId)
    requires SettleEffect(t, now, e, ids).Some?
    ensures var t' := SettleEffect(t, now, e, ids).value;
            var hits := Hits(t.payments, Targets(e));
            && e.status == Initiated && e.amount > 0 && hits != {}
            && ids.settlement !in t.settlements && e.merchant in t.merchants
            && t'.payments == Attach(t.payments, now, hits, ids.settlement)
            && t'.settlements == t.settlements[ids.settlement := Settlement(e.merchant, e.amount, e.currency)]
            && t' == t.(payments := t'.payments, settlements := t'.settlements, accounts := t'.accounts,
                        ledger := t'.ledger)
            && AccountsGrow(t.accounts, t'.accounts)
            && IsAccount(t'.accounts, payable, e.merchant, MerchantPayable, e.currency)
            && IsAccount(t'.accounts, bank, e.merchant, MerchantSettlement, e.currency)
            && t'.ledger == t.ledger + [Entry(Txg(ids.group), payable, None, Debit, e.amount, e.currency),
                                        Entry(Txg(ids.group), bank, None, Credit, e.amount, e.currency)]
  {
    var t1 := InsertSettlement(t, ids.settlement, Settlement(e.merchant, e.amount, e.currency)).value;
    var t2 := t1.(payments := Attach(t1.payments, now, Hits(t1.payments, Targets(e)), ids.settlement));
    EnsureAccountShape(t2, e.merchant, MerchantPayable, e.currency, ids.payable);
    var t3 := EnsureAccount(t2, e.merchant, MerchantPayable, e.currency, ids.payable).value;
    payable := FindAccount(t3.accounts, e.merchant, MerchantPayable, e.currency).value;
    EnsureAccountShape(t3, e.merchant, MerchantSettlement, e.currency, ids.bank);
    var t4 := EnsureAccount(t3, e.merchant, MerchantSettlement, e.currency, ids.bank).value;
    bank := FindAccount(t4.accounts, e.merchant, MerchantSettlement, e.currency).value;
    var debit := Entry(Txg(ids.group), payable, None, Debit, e.amount, e.currency);
    var credit := Entry(Txg(ids.group), bank, None, Credit, e.amount, e.currency);
    assert t4.ledger + [debit] + [credit] == t4.ledger + [debit, credit];
  }

  /** The event names this payment, among others or, in the old form, alone. */
  predicate Listed(e: Event, p: PaymentId) {
    p in e.paymentIds || (e.paymentIds == {} && e.paymentId == Some(p))
  }

  /** What a committed settlement does to one payment: it is processed now, under the new settlement, exactly when the
      event lists it and no settlement had it. */
  lemma SettlesListed(t: Tables, now: nat, e: Event, ids: SettleIds, p: PaymentId)
    requires SettleEffect(t, now, e, ids).Some? && p in t.payments
    ensures var row := t.payments[p];
      p in SettleEffect(t, now, e, ids).value.payments
      && SettleEffect(t, now, e, ids).value.payments[p]
         == if row.settlement.None? && Listed(e, p)
            then row.(settlement := Some(ids.settlement), status := Processed, updatedAt := now)
            else row
  {
    var _, _ := SettleShape(t, now, e, ids);
    hide SettleEffect;
  }

  /** A committed refund: the full amount of a processed payment, recorded in `usd`, with the mirror
      of the capture pair on the merchant's `usd` payable account. */
  lemma RefundShape(t: Tables, m: MerchantId, p: PaymentId, amount: int, r: RefundId) returns (payable: AccountId)
    requires RefundEffect(t, m, p, amount, r).Some?
    ensures var t' := RefundEffect(t, m, p, amount, r).value;
            && p in t.payments && t.payments[p].merchant == m && t.payments[p].status == Processed
            && t.payments[p].amount == amount && r !in t.refunds && amount > 0
            && t'.payments == t.payments[p := t.payments[p].(status := Refunded)]
            && t'.refunds == t.refunds[r := Refund(p, m, amount, LowerUsd)]
            && t' == t.(payments := t'.payments, refunds := t'.refunds, ledger := t'.ledger)
            && System in t.accounts
            && IsAccount(t.accounts, payable, m, MerchantPayable, LowerUsd)
            && t'.ledger == t.ledger + [Entry(RefundGroup(r), payable, None, Debit, amount, LowerUsd),
                                        Entry(RefundGroup(r), System, None, Credit, amount, LowerUsd)]
  {
    payable := FindAccount(t.accounts, m, MerchantPayable, LowerUsd).value;
    var debit := Entry(RefundGroup(r), payable, None, Debit, amount, LowerUsd);
    var credit := Entry(RefundGroup(r), System, None, Credit, amount, LowerUsd);
    assert t.ledger + [debit] + [credit] == t.ledger + [debit, credit];
  }

  /** What the admin settlement would commit: one settlement row in `USD` for the pending payments of the merchant,
      whatever their currencies, all of them processed under it, and a pair in INR on two accounts named after it. */
  lemma AdminSettleShape(t: Tables, now: nat, m: MerchantId, s: SettlementId, group: nat)
    requires AdminSettleEffect(t, now, m, s, group).Some?
    ensures var t' := AdminSettleEffect(t, now, m, s, group).value;
            var pending := set p | p in t.payments && t.payments[p].merchant == m && t.payments[p].status == Initiated
                                   && t.payments[p].settlement.None?;
            var amount := Total(t.payments, pending);
            && pending != {} && s !in t.settlements && m in t.merchants && 0 < amount <= 9223372036854775807
            && t'.payments.Keys == t.payments.Keys
            && (forall p :: p in t.payments ==>
                  t'.payments[p] == if p in pending
                                    then t.payments[p].(settlement := Some(s), status := Processed, updatedAt := now)
                                    else t.payments[p])
            && t'.settlements == t.settlements[s := Settlement(m, amount, UpperUsd)]
            && t' == t.(payments := t'.payments, settlements := t'.settlements, ledger := t'.ledger)
            && t'.ledger == t.ledger + [Entry(AdminGroup(group), AdminPayable(m), None, Debit, amount, Inr),
                                        Entry(AdminGroup(group), AdminSettlement(m), None, Credit, amount, Inr)]
  {
    var amount := Total(t.payments, Pending(t.payments, m));
    var d := Entry(AdminGroup(group), AdminPayable(m), None, Debit, amount, Inr);
    var c := Entry(AdminGroup(group), AdminSettlement(m), None, Credit, amount, Inr);
    assert t.ledger + [d] + [c] == t.ledger + [d, c];
  }

  /** The admin settlement writes its debit to an account name that must already exist. */
  lemma AdminSettleNeedsAccount(t: Tables, now: nat, m: MerchantId, s: SettlementId, group: nat)
    requires AdminSettleEffect(t, now, m, s, group).Some?
    ensures AdminPayable(m) in t.accounts
  {
  }
}
