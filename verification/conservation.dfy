/** Money is conserved: what a merchant's payable account holds in a currency is what was captured,
    less what was settled, less what was refunded, after every run. */
module Conservation {
  import opened Sums
  import opened Schema
  import opened Effects
  import opened Pipeline
  import opened Invariant

  /** Credits minus debits of the payable account of (m, c); nothing yet if there is no account. */
  ghost function PayableBalance(t: Tables, m: MerchantId, c: Currency): int {
    var a := FindAccount(t.accounts, m, MerchantPayable, c);
    if a.Some? then Net(t.ledger, a.value) else 0
  }

  ghost function CapturedOf(t: Tables, k: GroupKey, p: PaymentId): int {
    if p in t.payments && KeyOf(t.payments[p]) == k then t.payments[p].amount * Postings(t.ledger, p) else 0
  }

  /** Each payment's amount, once per committed posting. */
  ghost function Captured(t: Tables, k: GroupKey): int {
    Sum(t.payments.Keys, p => CapturedOf(t, k, p))
  }

  ghost function SettledOf(t: Tables, k: GroupKey, sid: SettlementId): int {
    if sid in t.settlements && GroupKey(t.settlements[sid].merchant, t.settlements[sid].currency) == k
    then t.settlements[sid].amount else 0
  }

  ghost function SettledTotal(t: Tables, k: GroupKey): int {
    Sum(t.settlements.Keys, sid => SettledOf(t, k, sid))
  }

  ghost function RefundedOf(t: Tables, k: GroupKey, r: RefundId): int {
    if r in t.refunds && GroupKey(t.refunds[r].merchant, t.refunds[r].currency) == k then t.refunds[r].amount else 0
  }

  ghost function RefundedTotal(t: Tables, k: GroupKey): int {
    Sum(t.refunds.Keys, r => RefundedOf(t, k, r))
  }

  ghost predicate Balanced(t: Tables, k: GroupKey) {
    PayableBalance(t, k.merchant, k.currency) == Captured(t, k) - SettledTotal(t, k) - RefundedTotal(t, k)
  }

  // ----- how each side moves -----

  ghost function Share(t: Tables, e: Entry, k: GroupKey): int {
    if IsAccount(t.accounts, e.account, k.merchant, MerchantPayable, k.currency) then Signed(e) else 0
  }

  lemma FoundIsUnique(accounts: map<AccountId, Account>, a: AccountId, m: MerchantId, kind: AccountType, c: Currency)
    requires UniqueAccounts(accounts) && IsAccount(accounts, a, m, kind, c)
    ensures FindAccount(accounts, m, kind, c) == Some(a)
  {
  }

  lemma BalanceAfterPair(t: Tables, t': Tables, d: Entry, c: Entry, k: GroupKey)
    requires UniqueAccounts(t.accounts) && EntriesOk(t)
    requires AccountsGrow(t.accounts, t'.accounts) && t'.ledger == t.ledger + [d, c]
    ensures PayableBalance(t', k.merchant, k.currency)
            == PayableBalance(t, k.merchant, k.currency) + Share(t', d, k) + Share(t', c, k)
  {
    var a := FindAccount(t.accounts, k.merchant, MerchantPayable, k.currency);
    var a' := FindAccount(t'.accounts, k.merchant, MerchantPayable, k.currency);
    if a.Some? {
      FoundIsUnique(t'.accounts, a.value, k.merchant, MerchantPayable, k.currency);
    }
    if a'.Some? {
      NetPair(t.ledger, d, c, a'.value);
      forall e: Entry | e == d || e == c ensures Share(t', e, k) == if e.account == a'.value then Signed(e) else 0 {
        if IsAccount(t'.accounts, e.account, k.merchant, MerchantPayable, k.currency) {
          FoundIsUnique(t'.accounts, e.account, k.merchant, MerchantPayable, k.currency);
        }
      }
      if a.None? {
        assert t.ledger[..|t.ledger|] == t.ledger;
        assert !IsAccount(t.accounts, a'.value, k.merchant, MerchantPayable, k.currency);
        NetUnused(t, |t.ledger|, a'.value);
      }
    }
  }

  lemma CapturedFrame(t: Tables, t': Tables, k: GroupKey)
    requires t.payments.Keys == t'.payments.Keys
    requires forall p :: p in t.payments ==> CapturedOf(t', k, p) == CapturedOf(t, k, p)
    ensures Captured(t', k) == Captured(t, k)
  {
    SumCongruent(t.payments.Keys, p => CapturedOf(t, k, p), p => CapturedOf(t', k, p));
  }

  lemma SettledFrame(t: Tables, t': Tables, k: GroupKey)
    requires t'.settlements == t.settlements
    ensures SettledTotal(t', k) == SettledTotal(t, k)
  {
    SumCongruent(t.settlements.Keys, sid => SettledOf(t, k, sid), sid => SettledOf(t', k, sid));
  }

  lemma RefundedFrame(t: Tables, t': Tables, k: GroupKey)
    requires t'.refunds == t.refunds
    ensures RefundedTotal(t', k) == RefundedTotal(t, k)
  {
    SumCongruent(t.refunds.Keys, r => RefundedOf(t, k, r), r => RefundedOf(t', k, r));
  }

  // ----- one lemma per step that moves money -----

  lemma PostBalanced(s: State, i: nat, ids: LedgerIds, k: GroupKey)
    requires Inv(s) && Balanced(s.tables, k)
    ensures Balanced(Apply(s, Post(i, ids)).tables, k)
  {
    var t, t' := s.tables, Apply(s, Post(i, ids)).tables;
    if t' != t {
      var e := s.log[i];
      var p := e.paymentId.value;
      assert EventOk(s, e) && PaymentOk(s, p);
      hide AccountsOk, PairsOk, EntriesOk, PaymentsOk, PaymentOk, EventsOk, SettlementsOk, RefundsOk;
      var payable := PostShape(t, s.now, e, ids);
      hide PostEffect;
      var d, c := t'.ledger[|t.ledger|], t'.ledger[|t.ledger| + 1];
      AccountsUnique(t.accounts);
      AccountsKept(t.accounts, t'.accounts);
      SystemIsNotPayable(t'.accounts, k);
      BalanceAfterPair(t, t', d, c, k);
      CapturedAfterPost(t, t', p, d, c, k);
      SettledFrame(t, t', k);
      RefundedFrame(t, t', k);
    }
  }

  lemma CapturedAfterPost(t: Tables, t': Tables, p: PaymentId, d: Entry, c: Entry, k: GroupKey)
    requires p in t.payments && t'.payments.Keys == t.payments.Keys
    requires forall q :: q in t.payments ==>
               KeyOf(t'.payments[q]) == KeyOf(t.payments[q]) && t'.payments[q].amount == t.payments[q].amount
    requires t'.ledger == t.ledger + [d, c] && d.kind == Debit && IsCapture(c, p) && d.payment == Some(p)
    ensures Captured(t', k) == Captured(t, k) + if KeyOf(t.payments[p]) == k then t.payments[p].amount else 0
  {
    forall q | q in t.payments
      ensures CapturedOf(t', k, q) == CapturedOf(t, k, q) + if q == p then OwedBy(t, k, p) else 0
    {
      OneCapturedAfterPost(t, t', p, d, c, k, q);
    }
    hide CapturedOf;
    SumChange(t.payments.Keys, q => CapturedOf(t, k, q), q => CapturedOf(t', k, q), p);
  }

  /** What one posting of p adds to the captures of k. */
  function OwedBy(t: Tables, k: GroupKey, p: PaymentId): int {
    if p in t.payments && KeyOf(t.payments[p]) == k then t.payments[p].amount else 0
  }

  lemma OneCapturedAfterPost(t: Tables, t': Tables, p: PaymentId, d: Entry, c: Entry, k: GroupKey, q: PaymentId)
    requires p in t.payments && q in t.payments && q in t'.payments
    requires KeyOf(t'.payments[q]) == KeyOf(t.payments[q]) && t'.payments[q].amount == t.payments[q].amount
    requires t'.ledger == t.ledger + [d, c] && d.kind == Debit && IsCapture(c, p) && d.payment == Some(p)
    ensures CapturedOf(t', k, q) == CapturedOf(t, k, q) + if q == p then OwedBy(t, k, p) else 0
  {
    PostingsPair(t.ledger, d, c, q);
    hide Postings;
    var a, n := t.payments[q].amount, Postings(t.ledger, q);
    assert a * (n + 1) == a * n + a;
  }

  lemma SettleBalanced(s: State, i: nat, ids: SettleIds, k: GroupKey)
    requires Inv(s) && Balanced(s.tables, k)
    ensures Balanced(Apply(s, Settle(i, ids)).tables, k)
  {
    hide AccountsOk, PairsOk, EntriesOk, PaymentsOk, EventsOk, SettlementsOk, RefundsOk;
    var t, t' := s.tables, Apply(s, Settle(i, ids)).tables;
    if t' != t {
      var e := s.log[i];
      var payable, bank := SettleShape(t, s.now, e, ids);
      hide SettleEffect;
      var d, c := t'.ledger[|t.ledger|], t'.ledger[|t.ledger| + 1];
      AccountsUnique(t.accounts);
      BalanceAfterPair(t, t', d, c, k);
      UncapturedPair(t, t', d, c, k);
      SettledAfter(t, t', ids.settlement, k);
      RefundedFrame(t, t', k);
    }
  }

  lemma SettledAfter(t: Tables, t': Tables, sid: SettlementId, k: GroupKey)
    requires sid !in t.settlements && sid in t'.settlements
    requires t'.settlements == t.settlements[sid := t'.settlements[sid]]
    ensures SettledTotal(t', k) == SettledTotal(t, k) + SettledOf(t', k, sid)
  {
    assert t'.settlements.Keys == t.settlements.Keys + {sid};
    SumAdd(t.settlements.Keys, x => SettledOf(t', k, x), sid);
    SumCongruent(t.settlements.Keys, x => SettledOf(t, k, x), x => SettledOf(t', k, x));
    SumCongruent(t'.settlements.Keys, x => SettledOf(t', k, x), x => SettledOf(t', k, x));
  }

  lemma UncapturedPair(t: Tables, t': Tables, d: Entry, c: Entry, k: GroupKey)
    requires t'.payments.Keys == t.payments.Keys
    requires forall q :: q in t.payments ==>
               KeyOf(t'.payments[q]) == KeyOf(t.payments[q]) && t'.payments[q].amount == t.payments[q].amount
    requires t'.ledger == t.ledger + [d, c] && d.payment.None? && c.payment.None?
    ensures Captured(t', k) == Captured(t, k)
  {
    forall q ensures Postings(t'.ledger, q) == Postings(t.ledger, q) { PostingsPair(t.ledger, d, c, q); }
    CapturedFrame(t, t', k);
  }

  lemma RefundBalanced(s: State, m: MerchantId, p: PaymentId, amount: int, r: RefundId, k: GroupKey)
    requires Inv(s) && Balanced(s.tables, k)
    ensures Balanced(Apply(s, IssueRefund(m, p, amount, r)).tables, k)
  {
    hide AccountsOk, PairsOk, EntriesOk, PaymentsOk, EventsOk, SettlementsOk, RefundsOk;
    var t, t' := s.tables, Apply(s, IssueRefund(m, p, amount, r)).tables;
    if t' != t {
      var payable := RefundShape(t, m, p, amount, r);
      hide RefundEffect;
      var d, c := t'.ledger[|t.ledger|], t'.ledger[|t.ledger| + 1];
      AccountsUnique(t.accounts);
      SystemIsNotPayable(t.accounts, k);
      BalanceAfterPair(t, t', d, c, k);
      UncapturedPair(t, t', d, c, k);
      SettledFrame(t, t', k);
      RefundedAfter(t, t', r, k);
    }
  }

  lemma RefundedAfter(t: Tables, t': Tables, r: RefundId, k: GroupKey)
    requires r !in t.refunds && r in t'.refunds
    requires t'.refunds == t.refunds[r := t'.refunds[r]]
    ensures RefundedTotal(t', k) == RefundedTotal(t, k) + RefundedOf(t', k, r)
  {
    assert t'.refunds.Keys == t.refunds.Keys + {r};
    SumAdd(t.refunds.Keys, x => RefundedOf(t', k, x), r);
    SumCongruent(t.refunds.Keys, x => RefundedOf(t, k, x), x => RefundedOf(t', k, x));
    SumCongruent(t'.refunds.Keys, x => RefundedOf(t', k, x), x => RefundedOf(t', k, x));
  }

  lemma AccountsUnique(accounts: map<AccountId, Account>)
    requires AccountsOk(accounts)
    ensures UniqueAccounts(accounts)
  {
  }

  lemma SystemIsNotPayable(accounts: map<AccountId, Account>, k: GroupKey)
    requires AccountsOk(accounts)
    ensures !IsAccount(accounts, System, k.merchant, MerchantPayable, k.currency)
  {
  }

  /** Steps that touch neither ledger, accounts, settlements nor refunds. */
  lemma UnmovedBalanced(s: State, s': State, k: GroupKey)
    requires Balanced(s.tables, k)
    requires s'.tables.accounts == s.tables.accounts && s'.tables.ledger == s.tables.ledger
    requires s'.tables.settlements == s.tables.settlements && s'.tables.refunds == s.tables.refunds
    requires Captured(s'.tables, k) == Captured(s.tables, k)
    ensures Balanced(s'.tables, k)
  {
    SettledFrame(s.tables, s'.tables, k);
    RefundedFrame(s.tables, s'.tables, k);
  }

  lemma InsertBalanced(s: State, p: PaymentId, req: Request, key: Key, token: Token, k: GroupKey)
    requires Inv(s) && Balanced(s.tables, k)
    ensures Balanced(Apply(s, Insert(p, req, key, token)).tables, k)
  {
    hide AccountsOk, PairsOk, PaymentsOk, EventsOk, SettlementsOk, RefundsOk;
    var s' := Apply(s, Insert(p, req, key, token));
    if s' != s {
      CapturedAfterInsert(s.tables, s'.tables, p, k);
      UnmovedBalanced(s, s', k);
    }
  }

  lemma CapturedAfterInsert(t: Tables, t': Tables, p: PaymentId, k: GroupKey)
    requires EntriesOk(t) && p !in t.payments && p in t'.payments
    requires t' == t.(payments := t.payments[p := t'.payments[p]])
    ensures Captured(t', k) == Captured(t, k)
  {
    assert t.ledger[..|t.ledger|] == t.ledger;
    PostingsUnused(t, |t.ledger|, p);
    assert t'.payments.Keys == t.payments.Keys + {p};
    SumAdd(t.payments.Keys, q => CapturedOf(t', k, q), p);
    SumCongruent(t.payments.Keys, q => CapturedOf(t, k, q), q => CapturedOf(t', k, q));
    SumCongruent(t'.payments.Keys, q => CapturedOf(t', k, q), q => CapturedOf(t', k, q));
  }

  lemma StepBalanced(s: State, a: Action, k: GroupKey)
    requires Inv(s) && Balanced(s.tables, k)
    ensures Balanced(Apply(s, a).tables, k)
  {
    hide Inv, Balanced, Captured;
    match a
    case AdminSettle(m, sid, g) => AdminSettleRollsBack(s, m, sid, g);
    case Insert(p, req, key, token) => InsertBalanced(s, p, req, key, token, k);
    case Mark(p, approved) => CapturedFrame(s.tables, Apply(s, a).tables, k); UnmovedBalanced(s, Apply(s, a), k);
    case Post(i, ids) => PostBalanced(s, i, ids, k);
    case Settle(i, ids) => SettleBalanced(s, i, ids, k);
    case IssueRefund(m, p, amount, r) => RefundBalanced(s, m, p, amount, r, k);
    case ChangeSchedule(_, _) => CapturedFrame(s.tables, Apply(s, a).tables, k); UnmovedBalanced(s, Apply(s, a), k);
    case Wait(_) =>
    case Publish(_) =>
    case Poll(_) =>
    case Notify(_, _, _) =>
  }

  /** Conservation over every run, for every merchant and currency. */
  lemma {:induction false} MoneyConserved(s0: State, acts: seq<Action>, m: MerchantId, c: Currency)
    requires Initial(s0)
    ensures var t := Exec(s0, acts).tables;
            var k := GroupKey(m, c);
            PayableBalance(t, m, c) == Captured(t, k) - SettledTotal(t, k) - RefundedTotal(t, k)
  {
    if acts != [] {
      var before := acts[..|acts| - 1];
      MoneyConserved(s0, before, m, c);
      Always(s0, before);
      StepBalanced(Exec(s0, before), acts[|acts| - 1], GroupKey(m, c));
    }
  }
}
