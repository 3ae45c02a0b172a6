/** The relational tables the services share, their constraints, and the single SQL statements
    that add a row. A statement is None exactly when one of the table's constraints rejects it. */
module Schema {
  import opened Sums

  datatype Option<+T> = None | Some(value: T) {
    predicate IsFailure() { None? }
    function PropagateFailure<U>(): Option<U>
      requires None?
    {
      None
    }
    function Extract(): T
      requires Some?
    {
      value
    }
  }

  type MerchantId = nat
  type PaymentId = nat
  type SettlementId = nat
  type RefundId = nat
  type Token = nat
  type Key = nat

  /** Currency codes are compared byte by byte: the refund code writes `usd`, the admin settlement
      code writes `USD`, and a ledger row inserted without a currency gets `INR`. */
  datatype Currency = LowerUsd | UpperUsd | Inr | OtherCode(code: nat)

  datatype Schedule = Instant | OneHour | TwelveHours | TwentyFourHours | Daily | Weekly | Biweekly | Monthly

  datatype Status = Created | Initiated | Processed | Refunded | Failed | Settled

  /** The system account has a fixed name; generated names are ULIDs; the admin service spells two
      more names that contain the merchant. The four families never coincide. */
  datatype AccountId = System | Generated(n: nat) | AdminPayable(owner: MerchantId) | AdminSettlement(owner: MerchantId)

  datatype AccountType = MerchantPayable | MerchantSettlement | BankTransit

  datatype GroupId = Txg(n: nat) | RefundGroup(refund: RefundId) | AdminGroup(n: nat)

  datatype EntryType = Debit | Credit

  datatype Payment = Payment(merchant: MerchantId, amount: int, currency: Currency, status: Status,
                             key: Key, updatedAt: nat, settlement: Option<SettlementId>)
  datatype Account = Account(merchant: Option<MerchantId>, kind: AccountType, currency: Currency)
  datatype Settlement = Settlement(merchant: MerchantId, amount: int, currency: Currency)
  datatype Refund = Refund(payment: PaymentId, merchant: MerchantId, amount: int, currency: Currency)
  datatype Entry = Entry(group: GroupId, account: AccountId, payment: Option<PaymentId>,
                         kind: EntryType, amount: int, currency: Currency)

  datatype Tables = Tables(merchants: map<MerchantId, Schedule>, tokens: set<Token>,
                           payments: map<PaymentId, Payment>, accounts: map<AccountId, Account>,
                           settlements: map<SettlementId, Settlement>, refunds: map<RefundId, Refund>,
                           ledger: seq<Entry>)

  /** A message on the payment_events topic. Absent JSON fields are None or empty. The payment ids
      come from array_agg over the primary key and are only used with `= ANY`, hence a set. */
  datatype Event = Event(status: Status, paymentId: Option<PaymentId>, paymentIds: set<PaymentId>,
                         merchant: MerchantId, amount: int, currency: Currency)

  const MAX_INT64: int := 0x7fff_ffff_ffff_ffff

  // ----- single rows -----

  predicate KeyTaken(payments: map<PaymentId, Payment>, m: MerchantId, k: Key) {
    exists p :: p in payments && payments[p].merchant == m && payments[p].key == k
  }

  function InsertPayment(t: Tables, p: PaymentId, row: Payment, token: Token): Option<Tables> {
    if p !in t.payments && row.amount > 0 && row.merchant in t.merchants && token in t.tokens
       && !KeyTaken(t.payments, row.merchant, row.key)
    then Some(t.(payments := t.payments[p := row]))
    else None
  }

  /** What a payment must meet to be stored: a new id, a positive amount, a registered merchant, a known card, and no
      earlier payment of the same merchant under the same key. What other merchants did with the key is no matter. */
  ghost predicate Acceptable(t: Tables, p: PaymentId, m: MerchantId, k: Key, amount: int, token: Token) {
    && p !in t.payments && amount > 0 && m in t.merchants && token in t.tokens
    && (forall q :: q in t.payments && t.payments[q].merchant == m ==> t.payments[q].key != k)
  }

  lemma InsertIffAcceptable(t: Tables, p: PaymentId, row: Payment, token: Token)
    ensures InsertPayment(t, p, row, token).Some? <==> Acceptable(t, p, row.merchant, row.key, row.amount, token)
  {
  }

  predicate AccountTaken(accounts: map<AccountId, Account>, row: Account) {
    row.merchant.Some? && exists a :: a in accounts && accounts[a] == row
  }

  function InsertAccount(t: Tables, a: AccountId, row: Account): Option<Tables> {
    if a !in t.accounts && (row.merchant.Some? ==> row.merchant.value in t.merchants) && !AccountTaken(t.accounts, row)
    then Some(t.(accounts := t.accounts[a := row]))
    else None
  }

  function InsertSettlement(t: Tables, s: SettlementId, row: Settlement): Option<Tables> {
    if s !in t.settlements && row.merchant in t.merchants
    then Some(t.(settlements := t.settlements[s := row]))
    else None
  }

  function InsertRefund(t: Tables, r: RefundId, row: Refund): Option<Tables> {
    if r !in t.refunds && row.payment in t.payments && row.merchant in t.merchants
    then Some(t.(refunds := t.refunds[r := row]))
    else None
  }

  function InsertEntry(t: Tables, e: Entry): Option<Tables> {
    if e.account in t.accounts && (e.payment.Some? ==> e.payment.value in t.payments) && e.amount > 0
    then Some(t.(ledger := t.ledger + [e]))
    else None
  }

  // ----- accounts by owner -----

  ghost predicate UniqueAccounts(accounts: map<AccountId, Account>) {
    forall a, b :: a in accounts && b in accounts && accounts[a] == accounts[b] && accounts[a].merchant.Some? ==> a == b
  }

  predicate IsAccount(accounts: map<AccountId, Account>, a: AccountId, m: MerchantId, kind: AccountType, c: Currency) {
    a in accounts && accounts[a] == Account(Some(m), kind, c)
  }

  ghost function FindAccount(accounts: map<AccountId, Account>, m: MerchantId, kind: AccountType,
                             c: Currency): (r: Option<AccountId>)
    ensures r.Some? ==> IsAccount(accounts, r.value, m, kind, c)
    ensures r.None? ==> forall a :: !IsAccount(accounts, a, m, kind, c)
  {
    if a :| IsAccount(accounts, a, m, kind, c) then Some(a) else None
  }

  // ----- derived quantities -----

  /** How many times the ledger has posted payment p: its capture credits. */
  ghost function Postings(ledger: seq<Entry>, p: PaymentId): nat {
    if ledger == [] then 0
    else Postings(ledger[..|ledger| - 1], p) + (if IsCapture(ledger[|ledger| - 1], p) then 1 else 0)
  }

  predicate IsCapture(e: Entry, p: PaymentId) {
    e.payment == Some(p) && e.kind == Credit
  }

  function Signed(e: Entry): int {
    if e.kind == Credit then e.amount else -e.amount
  }

  /** Credits minus debits of one account. */
  ghost function Net(ledger: seq<Entry>, a: AccountId): int {
    if ledger == [] then 0
    else
      var e := ledger[|ledger| - 1];
      Net(ledger[..|ledger| - 1], a) + (if e.account == a then Signed(e) else 0)
  }

  function AmountOf(payments: map<PaymentId, Payment>, p: PaymentId): int {
    if p in payments then payments[p].amount else 0
  }

  /** SUM(amount) over a set of payments. */
  ghost function Total(payments: map<PaymentId, Payment>, ids: set<PaymentId>): int {
    Sum(ids, p => AmountOf(payments, p))
  }

  ghost predicate SameAmounts(a: map<PaymentId, Payment>, b: map<PaymentId, Payment>, ids: set<PaymentId>) {
    forall p :: p in ids ==> AmountOf(a, p) == AmountOf(b, p)
  }

  lemma TotalFrame(a: map<PaymentId, Payment>, b: map<PaymentId, Payment>, ids: set<PaymentId>)
    requires SameAmounts(a, b, ids)
    ensures Total(a, ids) == Total(b, ids)
  {
    SumCongruent(ids, p => AmountOf(a, p), p => AmountOf(b, p));
  }
}
