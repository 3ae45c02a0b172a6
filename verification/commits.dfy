/** Exactly which requests and deliveries commit, in every reachable state; the system account, which they all post to;
    and what subscribers are told of a settlement. */
module Commits {
  import opened Sums
  import opened Schema
  import opened Effects
  import opened Pipeline
  import opened Invariant

  // ----- the system account -----

  /** It is opened with the first ledger entry, in that entry's currency. */
  ghost predicate SystemOpened(t: Tables) {
    && (System in t.accounts <==> t.ledger != [])
    && (System in t.accounts ==> t.accounts[System].currency == t.ledger[0].currency)
  }

  lemma PostOpensSystem(t: Tables, now: nat, e: Event, ids: LedgerIds)
    requires SystemOpened(t) && PostEffect(t, now, e, ids).Some?
    ensures SystemOpened(PostEffect(t, now, e, ids).value)
  {
    var _ := PostShape(t, now, e, ids);
    hide PostEffect;
  }

  /** There is nothing to settle before the first posting. */
  lemma SettledAfterPosting(s: State, i: nat, ids: SettleIds)
    requires PaymentsOk(s) && i < |s.log| && EventOk(s, s.log[i])
             && SettleEffect(s.tables, s.now, s.log[i], ids).Some?
    ensures s.tables.ledger != []
  {
    var _, _ := SettleShape(s.tables, s.now, s.log[i], ids);
    hide SettleEffect;
    var p :| p in Hits(s.tables.payments, Targets(s.log[i]));
    assert PaymentOk(s, p);
  }

  lemma SettleKeepsSystem(t: Tables, now: nat, e: Event, ids: SettleIds)
    requires SystemOpened(t) && t.ledger != [] && SettleEffect(t, now, e, ids).Some?
    ensures SystemOpened(SettleEffect(t, now, e, ids).value)
  {
    var _, _ := SettleShape(t, now, e, ids);
    hide SettleEffect;
  }

  lemma RefundKeepsSystem(t: Tables, m: MerchantId, p: PaymentId, amount: int, r: RefundId)
    requires SystemOpened(t) && RefundEffect(t, m, p, amount, r).Some?
    ensures SystemOpened(RefundEffect(t, m, p, amount, r).value)
  {
    var _ := RefundShape(t, m, p, amount, r);
    hide RefundEffect;
  }

  lemma SystemStep(s: State, a: Action)
    requires Inv(s) && SystemOpened(s.tables)
    ensures SystemOpened(Apply(s, a).tables)
  {
    hide SystemOpened, PostEffect, SettleEffect, RefundEffect, UnusedGroup, AccountsOk, PairsOk, EntriesOk, PaymentsOk;
    hide SettlementsOk, RefundsOk;
    match a
    case Post(i, ids) =>
      if Apply(s, a) != s { PostOpensSystem(s.tables, s.now, s.log[i], ids); }
    case Settle(i, ids) =>
      if Apply(s, a) != s {
        assert EventOk(s, s.log[i]);
        SettledAfterPosting(s, i, ids);
        SettleKeepsSystem(s.tables, s.now, s.log[i], ids);
      }
    case IssueRefund(m, p, amount, r) =>
      if Apply(s, a) != s { RefundKeepsSystem(s.tables, m, p, amount, r); }
    case _ =>
      OtherSteps(s, a);
      SameSystem(s.tables, Apply(s, a).tables);
  }

  lemma SameSystem(t: Tables, t': Tables)
    requires SystemOpened(t) && Harmless(t, t')
    ensures SystemOpened(t')
  {
  }

  /** In every run the system account exists exactly from the first ledger entry on and is in its currency. */
  lemma {:induction false} SystemCurrencyIsFirst(s0: State, acts: seq<Action>)
    requires Initial(s0)
    ensures SystemOpened(Exec(s0, acts).tables)
  {
    if acts != [] {
      var before := acts[..|acts| - 1];
      SystemCurrencyIsFirst(s0, before);
      Always(s0, before);
      hide Inv, Initial, SystemOpened, Apply;
      SystemStep(Exec(s0, before), acts[|acts| - 1]);
    }
  }

  /** And it never changes again. */
  lemma SystemCurrencyForGood(s0: State, acts: seq<Action>, n: nat)
    requires Initial(s0) && n <= |acts| && Exec(s0, acts[..n]).tables.ledger != []
    ensures var t, u := Exec(s0, acts[..n]).tables, Exec(s0, acts).tables;
      System in t.accounts && System in u.accounts && u.accounts[System] == t.accounts[System]
  {
    SystemCurrencyIsFirst(s0, acts[..n]);
    NothingUndone(s0, acts, n);
  }

  // ----- which requests commit -----

  /** A payment is stored exactly when it is acceptable, and the row is the request's. */
  lemma InsertCommitsIff(s: State, p: PaymentId, req: Request, key: Key, token: Token)
    ensures var t' := Apply(s, Insert(p, req, key, token)).tables;
      && (t' != s.tables <==> Acceptable(s.tables, p, req.merchant, key, req.amount, token))
      && (t' != s.tables ==>
            t' == s.tables.(payments :=
              s.tables.payments[p := Payment(req.merchant, req.amount, req.currency, Created, key, s.now, None)]))
  {
    InsertIffAcceptable(s.tables, p, NewRow(req, key, s.now), token);
    hide KeyTaken, Acceptable;
    assert p !in s.tables.payments ==>
        s.tables.payments[p := NewRow(req, key, s.now)] != s.tables.payments by {
      assert p in s.tables.payments[p := NewRow(req, key, s.now)];
    }
  }

  /** Fresh names for the accounts that a delivery to the settlement consumer would have to open. */
  ghost predicate CanOpen(accounts: map<AccountId, Account>, k: GroupKey, ids: SettleIds) {
    var payable := FindAccount(accounts, k.merchant, MerchantPayable, k.currency);
    var bank := FindAccount(accounts, k.merchant, MerchantSettlement, k.currency);
    && (payable.None? ==> Generated(ids.payable) !in accounts)
    && (bank.None? ==> Generated(ids.bank) !in accounts && (payable.None? ==> ids.bank != ids.payable))
  }

  ghost predicate Settleable(s: State, i: nat, ids: SettleIds) {
    && i < |s.log| && s.log[i].status == Initiated && UnusedGroup(s.tables.ledger, Txg(ids.group))
    && ids.settlement !in s.tables.settlements
    && CanOpen(s.tables.accounts, GroupKey(s.log[i].merchant, s.log[i].currency), ids)
    && exists p :: p in s.tables.payments && Listed(s.log[i], p) && s.tables.payments[p].settlement.None?
  }

  /** In every reachable state a delivery to the settlement consumer commits exactly when its event is a settle event
      that lists at least one payment without a settlement, and its ids are unused. */
  lemma SettleCommitsIff(s: State, i: nat, ids: SettleIds)
    requires Inv(s)
    ensures Apply(s, Settle(i, ids)) != s <==> Settleable(s, i, ids)
  {
    if i < |s.log| && s.log[i].status == Initiated {
      assert EventOk(s, s.log[i]);
      EventCanSettle(s, s.log[i]);
      assert AccountsOk(s.tables.accounts) && UniqueAccounts(s.tables.accounts);
      hide Inv, SettleEffect, CanOpen;
      SettleIff(s.tables, s.now, s.log[i], ids);
      if SettleEffect(s.tables, s.now, s.log[i], ids).Some? { SettleMoves(s.tables, s.now, s.log[i], ids); }
    }
  }

  lemma EventCanSettle(s: State, e: Event)
    requires PaymentsOk(s) && EventOk(s, e) && e.status == Initiated
    ensures e.merchant in s.tables.merchants && e.amount > 0 && e.paymentIds != {}
  {
    var p :| p in e.paymentIds;
    assert PaymentOk(s, p);
    forall q | q in e.paymentIds ensures AmountOf(s.tables.payments, q) > 0 { assert PaymentOk(s, q); }
    hide PaymentsOk;
    var f := (q: PaymentId) => AmountOf(s.tables.payments, q);
    SumBounds(e.paymentIds, f);
    SumCongruent(e.paymentIds, f, q => AmountOf(s.tables.payments, q));
  }

  lemma SettleMoves(t: Tables, now: nat, e: Event, ids: SettleIds)
    requires SettleEffect(t, now, e, ids).Some?
    ensures SettleEffect(t, now, e, ids).value != t
  {
    var _, _ := SettleShape(t, now, e, ids);
    hide SettleEffect;
  }

  /** The same of any event and tables, in either form of the event. */
  lemma SettleIff(t: Tables, now: nat, e: Event, ids: SettleIds)
    requires UniqueAccounts(t.accounts) && e.status == Initiated && e.merchant in t.merchants && e.amount > 0
    ensures SettleEffect(t, now, e, ids).Some? <==>
            && ids.settlement !in t.settlements && CanOpen(t.accounts, GroupKey(e.merchant, e.currency), ids)
            && exists p :: p in t.payments && Listed(e, p) && t.payments[p].settlement.None?
  {
    SomethingToSettle(t.payments, e);
    var t1 := t.(settlements := t.settlements[ids.settlement := Settlement(e.merchant, e.amount, e.currency)]);
    var t2 := t1.(payments := Attach(t.payments, now, Hits(t.payments, Targets(e)), ids.settlement));
    BookIff(t2, e, ids);
    hide Hits, Attach, BookEffect, CanOpen;
  }

  lemma SomethingToSettle(payments: map<PaymentId, Payment>, e: Event)
    ensures Hits(payments, Targets(e)) != {}
            <==> exists p :: p in payments && Listed(e, p) && payments[p].settlement.None?
  {
    if p :| p in payments && Listed(e, p) && payments[p].settlement.None? {
      assert p in Hits(payments, Targets(e));
    }
    if p :| p in Hits(payments, Targets(e)) {
      assert Listed(e, p);
    }
  }

  lemma BookIff(t: Tables, e: Event, ids: SettleIds)
    requires UniqueAccounts(t.accounts) && e.merchant in t.merchants && e.amount > 0
    ensures BookEffect(t, e, ids).Some? <==> CanOpen(t.accounts, GroupKey(e.merchant, e.currency), ids)
  {
    EnsureIff(t, e.merchant, MerchantPayable, e.currency, ids.payable);
    var t1 := EnsureAccount(t, e.merchant, MerchantPayable, e.currency, ids.payable);
    if t1.Some? {
      EnsureAccountShape(t, e.merchant, MerchantPayable, e.currency, ids.payable);
      OtherKindSame(t, e.merchant, e.currency, ids.payable);
      EnsureIff(t1.value, e.merchant, MerchantSettlement, e.currency, ids.bank);
      var t2 := EnsureAccount(t1.value, e.merchant, MerchantSettlement, e.currency, ids.bank);
      if t2.Some? {
        EnsureAccountShape(t1.value, e.merchant, MerchantSettlement, e.currency, ids.bank);
      }
      hide EnsureAccount, UniqueAccounts;
    }
  }

  lemma EnsureIff(t: Tables, m: MerchantId, kind: AccountType, c: Currency, newId: nat)
    requires m in t.merchants
    ensures var t' := EnsureAccount(t, m, kind, c, newId);
      && (t'.Some? <==> FindAccount(t.accounts, m, kind, c).Some? || Generated(newId) !in t.accounts)
      && (t'.Some? ==>
            && t'.value.merchants == t.merchants
            && t'.value.accounts == if FindAccount(t.accounts, m, kind, c).Some? then t.accounts
                                    else t.accounts[Generated(newId) := Account(Some(m), kind, c)])
  {
    if AccountTaken(t.accounts, Account(Some(m), kind, c)) {
      var a :| a in t.accounts && t.accounts[a] == Account(Some(m), kind, c);
      assert IsAccount(t.accounts, a, m, kind, c);
    }
  }

  /** Opening a payable account does not change what is found for settlements. */
  lemma OtherKindSame(t: Tables, m: MerchantId, c: Currency, newId: nat)
    requires EnsureAccount(t, m, MerchantPayable, c, newId).Some?
    ensures var t' := EnsureAccount(t, m, MerchantPayable, c, newId).value;
            FindAccount(t'.accounts, m, MerchantSettlement, c).None?
            <==> FindAccount(t.accounts, m, MerchantSettlement, c).None?
  {
    var t' := EnsureAccount(t, m, MerchantPayable, c, newId).value;
    if FindAccount(t.accounts, m, MerchantSettlement, c).Some? {
      assert IsAccount(t'.accounts, FindAccount(t.accounts, m, MerchantSettlement, c).value, m, MerchantSettlement, c);
    }
    if FindAccount(t'.accounts, m, MerchantSettlement, c).Some? {
      assert IsAccount(t.accounts, FindAccount(t'.accounts, m, MerchantSettlement, c).value, m, MerchantSettlement, c);
    }
  }

  /** After any run a refund commits exactly for a processed payment of that merchant, in full, when the merchant has a
      `usd` payable account and the id is new; whether the merchant had refunds before is no matter. */
  lemma RefundCommitsIff(s0: State, acts: seq<Action>, m: MerchantId, p: PaymentId, amount: int, r: RefundId)
    requires Initial(s0)
    ensures var t := Exec(s0, acts).tables;
      RefundEffect(t, m, p, amount, r).Some?
      <==> && p in t.payments && t.payments[p].merchant == m && t.payments[p].status == Processed
           && t.payments[p].amount == amount && r !in t.refunds
           && exists a :: IsAccount(t.accounts, a, m, MerchantPayable, LowerUsd)
  {
    hide Exec, Inv, Initial, RefundEffect, IsAccount;
    Always(s0, acts);
    SystemCurrencyIsFirst(s0, acts);
    var s := Exec(s0, acts);
    if p in s.tables.payments && s.tables.payments[p].status == Processed { ProcessedIsPosted(s, p); }
    RefundIff(s.tables, m, p, amount, r);
  }

  lemma RefundIff(t: Tables, m: MerchantId, p: PaymentId, amount: int, r: RefundId)
    requires p in t.payments && t.payments[p].status == Processed ==>
               System in t.accounts && t.payments[p].amount > 0 && t.payments[p].merchant in t.merchants
    ensures RefundEffect(t, m, p, amount, r).Some?
      <==> && p in t.payments && t.payments[p].merchant == m && t.payments[p].status == Processed
           && t.payments[p].amount == amount && r !in t.refunds
           && exists a :: IsAccount(t.accounts, a, m, MerchantPayable, LowerUsd)
  {
  }

  lemma ProcessedIsPosted(s: State, p: PaymentId)
    requires Inv(s) && p in s.tables.payments && s.tables.payments[p].status == Processed
    ensures s.tables.ledger != [] && s.tables.payments[p].amount > 0
    ensures s.tables.payments[p].merchant in s.tables.merchants
  {
    assert PaymentOk(s, p);
  }

  // ----- what webhook subscribers are told -----

  /** The notice of a settled payment carries the amount of the whole settlement: it is the payment's own amount exactly
      when the event lists no other payment. */
  lemma NoticeTellsOwnAmountIff(s0: State, acts: seq<Action>, i: nat, p: PaymentId)
    requires Initial(s0) && i < |Exec(s0, acts).log|
    requires var e := Exec(s0, acts).log[i]; e.status == Initiated && p in e.paymentIds
    ensures var s := Exec(s0, acts);
      && p in s.tables.payments
      && (s.log[i].amount == s.tables.payments[p].amount <==> s.log[i].paymentIds == {p})
      && s.log[i].amount >= s.tables.payments[p].amount
  {
    hide Exec, Initial, Inv;
    Always(s0, acts);
    NoticeAmount(Exec(s0, acts), i, p);
  }

  lemma NoticeAmount(s: State, i: nat, p: PaymentId)
    requires Inv(s) && i < |s.log| && s.log[i].status == Initiated && p in s.log[i].paymentIds
    ensures p in s.tables.payments && s.log[i].amount >= s.tables.payments[p].amount
    ensures s.log[i].amount == s.tables.payments[p].amount <==> s.log[i].paymentIds == {p}
  {
    hide PaymentOk;
    assert EventOk(s, s.log[i]);
    forall q | q in s.log[i].paymentIds ensures AmountOf(s.tables.payments, q) > 0 { PositiveAmount(s, q); }
    hide Inv, Sum;
    var f := (q: PaymentId) => AmountOf(s.tables.payments, q);
    PositiveShare(s.log[i].paymentIds, f, p);
    SumCongruent(s.log[i].paymentIds, f, q => AmountOf(s.tables.payments, q));
  }

  lemma PositiveAmount(s: State, p: PaymentId)
    requires PaymentsOk(s) && p in s.tables.payments
    ensures AmountOf(s.tables.payments, p) > 0
  {
    assert PaymentOk(s, p);
  }

  lemma PositiveShare(s: set<PaymentId>, f: PaymentId -> int, p: PaymentId)
    requires p in s && forall q :: q in s ==> f(q) > 0
    ensures Sum(s, f) >= f(p) && (Sum(s, f) == f(p) <==> s == {p})
  {
    SumPick(s, f, p);
    SumBounds(s - {p}, f);
    assert s == {p} + (s - {p});
  }
}
