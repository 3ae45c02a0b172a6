/** Reachable states in which promises of the pipeline fail, each the other side of an exact condition proved in
    module Guarantees. */
module Witnesses {
  import opened Sums
  import opened Schema
  import opened Effects
  import opened Pipeline
  import opened Invariant
  import opened Conservation
  import opened Guarantees
  import opened Commits
  import opened Delivery
  import opened Rounds
  import opened Overlap

  // ----- building blocks: any reachable state of the one shop -----

  /** Group numbers, account names and settlement ids from n on are unused. */
  ghost predicate Unnamed(s: State, n: nat) {
    forall j: nat :: j >= n ==>
      UnusedGroup(s.tables.ledger, Txg(j)) && Generated(j) !in s.tables.accounts && j !in s.tables.settlements
  }

  ghost predicate Open(s: State, n: nat) {
    Inv(s) && s.tables.merchants == map[1 := Instant] && s.tables.tokens == {1} && Unnamed(s, n)
  }

  /** Accounts and ledger only grow. */
  ghost predicate Keeps(s: State, t: State) {
    && t.now == s.now && s.tables.ledger <= t.tables.ledger && t.tables.refunds == s.tables.refunds
    && forall a :: a in s.tables.accounts ==> a in t.tables.accounts && t.tables.accounts[a] == s.tables.accounts[a]
  }

  function Fresh(p: PaymentId, amount: int, c: Currency, status: Status, now: nat): Payment {
    Payment(1, amount, c, status, p, now, None)
  }

  /** The gateway takes payment p. */
  function Take(p: PaymentId, amount: int, c: Currency): seq<Action> {
    [Insert(p, Request(1, amount, c), p, 1), Mark(p, true), Publish(p)]
  }

  lemma InsertWorks(s: State, p: PaymentId, amount: int, c: Currency)
    requires s.tables.merchants == map[1 := Instant] && s.tables.tokens == {1} && amount > 0
    requires p !in s.tables.payments && !KeyTaken(s.tables.payments, 1, p)
    ensures var t := InsertAct(s, p, Request(1, amount, c), p, 1);
      && t.log == s.log && t.now == s.now && p in t.phases && t.phases[p] == Inserted(Request(1, amount, c))
      && t.tables == s.tables.(payments := s.tables.payments[p := Fresh(p, amount, c, Created, s.now)])
  {
    hide KeyTaken;
  }

  lemma MarkWorks(s: State, p: PaymentId, req: Request)
    requires p in s.phases && s.phases[p] == Inserted(req) && p in s.tables.payments
             && s.tables.payments[p].status == Created
    ensures var t := MarkAct(s, p, true);
      t.log == s.log && t.now == s.now && p in t.phases && t.phases[p] == Marked(req, Created) && t.tables == s.tables
  {
    assert s.tables.payments[p].(status := Created) == s.tables.payments[p];
    assert s.tables.payments[p := s.tables.payments[p]] == s.tables.payments;
  }

  lemma Three(s: State, a: Action, b: Action, c: Action)
    ensures Exec(s, [a, b, c]) == Apply(Apply(Apply(s, a), b), c)
  {
    hide Apply;
    assert [a, b, c][..2] == [a, b] && [a, b][..1] == [a] && [a][..0] == [];
    assert Exec(s, [a]) == Apply(s, a);
    assert Exec(s, [a, b]) == Apply(Exec(s, [a]), b);
  }

  lemma InvThree(s: State, a: Action, b: Action, c: Action)
    requires Inv(s)
    ensures Inv(Apply(Apply(Apply(s, a), b), c))
  {
    hide Inv, Evolves, Apply;
    Step(s, a);
    Step(Apply(s, a), b);
    Step(Apply(Apply(s, a), b), c);
  }

  lemma Taken(s: State, p: PaymentId, amount: int, c: Currency, n: nat)
    requires Open(s, n) && amount > 0 && p !in s.tables.payments && !KeyTaken(s.tables.payments, 1, p)
    ensures var t := Exec(s, Take(p, amount, c));
      && Open(t, n) && Keeps(s, t) && t.log == s.log + [Event(Created, Some(p), {}, 1, amount, c)]
      && t.tables == s.tables.(payments := s.tables.payments[p := Fresh(p, amount, c, Created, s.now)])
  {
    hide KeyTaken, UnusedGroup, Inv, InsertAct, MarkAct, Exec;
    var req := Request(1, amount, c);
    Three(s, Insert(p, req, p, 1), Mark(p, true), Publish(p));
    InvThree(s, Insert(p, req, p, 1), Mark(p, true), Publish(p));
    InsertWorks(s, p, amount, c);
    MarkWorks(InsertAct(s, p, req, p, 1), p, req);
  }

  lemma PostedNames(t: Tables, now: nat, e: Event, ids: LedgerIds, j: nat)
    requires PostEffect(t, now, e, ids).Some? && Generated(j) in PostEffect(t, now, e, ids).value.accounts
    ensures Generated(j) in t.accounts || j == ids.payable
  {
    hide FindAccount;
  }

  /** The ledger posts event i under the next number. */
  lemma Posted(s: State, i: nat, p: PaymentId, n: nat)
    requires Open(s, n) && i < |s.log| && s.log[i].status == Created && s.log[i].paymentId == Some(p)
    ensures var t := Exec(s, [Post(i, LedgerIds(n, n))]);
      && Open(t, n + 1) && Keeps(s, t) && t.log == s.log && p in s.tables.payments
         && t.tables.settlements == s.tables.settlements
      && t.tables.payments == s.tables.payments[p := s.tables.payments[p].(status := Initiated, updatedAt := s.now)]
      && |t.tables.ledger| == |s.tables.ledger| + 2 && IsCapture(t.tables.ledger[|s.tables.ledger| + 1], p)
      && System in t.tables.accounts && HasPayable(t.tables, s.log[i].currency)
  {
    var a := Post(i, LedgerIds(n, n));
    ExecOne(s, a);
    hide Inv, Evolves, PostEffect, Postable, UnusedGroup, Exec, FindAccount;
    CanPost(s, i, n);
    PostCommitsWheneverDelivered(s, i, LedgerIds(n, n));
    Step(s, a);
    EventIsOfShop(s, i);
    var payable := PostShape(s.tables, s.now, s.log[i], LedgerIds(n, n));
    var t := Apply(s, a);
    assert t.tables == PostEffect(s.tables, s.now, s.log[i], LedgerIds(n, n)).value;
    forall j: nat | Generated(j) in t.tables.accounts ensures Generated(j) in s.tables.accounts || j == n {
      PostedNames(s.tables, s.now, s.log[i], LedgerIds(n, n), j);
    }
    NextUnnamed(s, t, n);
    IsPayable(t.tables, payable, s.log[i].currency);
  }

  lemma CanPost(s: State, i: nat, n: nat)
    requires Open(s, n) && i < |s.log| && s.log[i].status == Created
    ensures Postable(s, i, LedgerIds(n, n)) && UnusedGroup(s.tables.ledger, Txg(n))
  {
    hide Inv, UnusedGroup;
  }

  predicate HasPayable(t: Tables, c: Currency) {
    exists a :: a in t.accounts && IsAccount(t.accounts, a, 1, MerchantPayable, c)
  }

  lemma IsPayable(t: Tables, a: AccountId, c: Currency)
    requires IsAccount(t.accounts, a, 1, MerchantPayable, c)
    ensures HasPayable(t, c)
  {
  }

  lemma EventIsOfShop(s: State, i: nat)
    requires Inv(s) && s.tables.merchants == map[1 := Instant] && i < |s.log| && s.log[i].status == Created
    ensures s.log[i].paymentId.Some? && s.log[i].paymentId.value in s.tables.payments
    ensures s.log[i].merchant == 1 && s.tables.payments[s.log[i].paymentId.value].merchant == 1
  {
    assert EventOk(s, s.log[i]) && PaymentOk(s, s.log[i].paymentId.value);
  }

  lemma NextUnnamed(s: State, t: State, n: nat)
    requires Unnamed(s, n) && t.tables.settlements == s.tables.settlements && |t.tables.ledger| == |s.tables.ledger| + 2
    requires s.tables.ledger <= t.tables.ledger
    requires t.tables.ledger[|s.tables.ledger|].group == Txg(n)
             && t.tables.ledger[|s.tables.ledger| + 1].group == Txg(n)
    requires forall j: nat :: Generated(j) in t.tables.accounts ==> Generated(j) in s.tables.accounts || j == n
    ensures Unnamed(t, n + 1)
  {
  }

  lemma TotalOfOne(payments: map<PaymentId, Payment>, p: PaymentId)
    requires p in payments
    ensures Total(payments, {p}) == payments[p].amount
  {
    var f := (q: PaymentId) => AmountOf(payments, q);
    SumAdd<PaymentId>({}, f, p);
    assert {} + {p} == {p};
    SumCongruent({p}, f, q => AmountOf(payments, q));
  }

  lemma OneGroup(t: Tables, now: nat, p: PaymentId)
    requires p in t.payments && Group(t, now, KeyOf(t.payments[p])) == {p} && t.payments[p].amount <= MAX_INT64
    ensures var row := t.payments[p];
      && CanPublish(t, now, [KeyOf(row)])
      && GroupEvents(t, now, [KeyOf(row)]) == [Event(Initiated, None, {p}, row.merchant, row.amount, row.currency)]
  {
    var k := KeyOf(t.payments[p]);
    TotalOfOne(t.payments, p);
    hide Total;
    assert p in Group(t, now, k);
    assert k in DueKeys(t, now);
    assert GroupEvents(t, now, [k]) == [GroupEvent(t, now, k)];
  }

  /** A poll finds one group, of one payment. */
  lemma Polled(s: State, p: PaymentId, n: nat)
    requires Open(s, n) && p in s.tables.payments && s.tables.payments[p].amount <= MAX_INT64
    requires Group(s.tables, s.now, KeyOf(s.tables.payments[p])) == {p}
    ensures var row := s.tables.payments[p];
            var t := Exec(s, [Poll([KeyOf(row)])]);
            Open(t, n) && t == s.(log := s.log + [Event(Initiated, None, {p}, row.merchant, row.amount, row.currency)])
  {
    hide Inv, Evolves, UnusedGroup, CanPublish, GroupEvents, Exec, Group;
    var k := KeyOf(s.tables.payments[p]);
    ExecOne(s, Poll([k]));
    Step(s, Poll([k]));
    OneGroup(s.tables, s.now, p);
  }

  /** The settlement consumer settles event i, of one unsettled payment, under the next numbers. */
  lemma SettledOne(s: State, i: nat, p: PaymentId, n: nat)
    requires Open(s, n) && i < |s.log| && p in s.tables.payments && s.tables.payments[p].settlement.None?
    requires s.log[i] == Event(Initiated, None, {p}, 1, s.log[i].amount, s.log[i].currency) && s.log[i].amount > 0
    ensures var t := Exec(s, [Settle(i, SettleIds(n, n, n + 1, n))]);
      && Inv(t) && Keeps(s, t) && t.log == s.log && |t.tables.ledger| == |s.tables.ledger| + 2
      && t.tables.payments.Keys == s.tables.payments.Keys && t.tables.merchants == s.tables.merchants
      && t.tables.payments[p] == s.tables.payments[p].(settlement := Some(n), status := Processed, updatedAt := s.now)
      && (forall j :: j > n ==> UnusedGroup(t.tables.ledger, Txg(j)))
      && (forall j :: j > n + 1 ==> Generated(j) !in t.tables.accounts)
  {
    hide Inv, Evolves, SettleEffect, Exec, UnusedGroup, Unnamed;
    var ids := SettleIds(n, n, n + 1, n);
    ExecOne(s, Settle(i, ids));
    Step(s, Settle(i, ids));
    OpenSettle(s, n);
    OneHit(s.tables.payments, p);
    SettledTables(s, i, p, n);
    UnusedAfter(s, Apply(s, Settle(i, ids)), n);
  }

  lemma OneHit(payments: map<PaymentId, Payment>, p: PaymentId)
    requires p in payments && payments[p].settlement.None?
    ensures Hits(payments, {p}) == {p}
  {
  }

  lemma SettledTables(s: State, i: nat, p: PaymentId, n: nat)
    requires Open(s, n) && i < |s.log| && p in s.tables.payments && s.tables.payments[p].settlement.None?
    requires s.log[i] == Event(Initiated, None, {p}, 1, s.log[i].amount, s.log[i].currency) && s.log[i].amount > 0
    ensures var e := SettleEffect(s.tables, s.now, s.log[i], SettleIds(n, n, n + 1, n));
      && e.Some? && e.value.refunds == s.tables.refunds && e.value.merchants == s.tables.merchants
      && e.value.payments.Keys == s.tables.payments.Keys
      && e.value.payments[p] == s.tables.payments[p].(settlement := Some(n), status := Processed, updatedAt := s.now)
      && |e.value.ledger| == |s.tables.ledger| + 2 && s.tables.ledger <= e.value.ledger
      && e.value.ledger[|s.tables.ledger|].group == Txg(n) && e.value.ledger[|s.tables.ledger| + 1].group == Txg(n)
      && (forall a :: a in s.tables.accounts ==> a in e.value.accounts && e.value.accounts[a] == s.tables.accounts[a])
      && (forall j :: j > n + 1 ==> Generated(j) !in e.value.accounts)
  {
    hide Inv, SettleEffect, UnusedGroup, AccountFor;
    OpenSettle(s, n);
    OneHit(s.tables.payments, p);
    var k := GroupKey(1, s.log[i].currency);
    SettleClosed(s.tables, s.now, k, {p}, s.log[i].amount, SettleIds(n, n, n + 1, n));
    AccountNames(s.tables.accounts, k, MerchantPayable, n);
    AccountNames(s.tables.accounts, k, MerchantSettlement, n + 1);
    hide Hits;
  }

  lemma OpenSettle(s: State, n: nat)
    requires Open(s, n)
    ensures UniqueAccounts(s.tables.accounts) && n !in s.tables.settlements && UnusedGroup(s.tables.ledger, Txg(n))
    ensures Generated(n) !in s.tables.accounts && Generated(n + 1) !in s.tables.accounts
  {
  }

  lemma AccountNames(accounts: map<AccountId, Account>, k: GroupKey, kind: AccountType, n: nat)
    ensures var a := AccountFor(accounts, k, kind, n);
      if a in accounts && a != Generated(n) then accounts[a] == RowFor(k, kind) else a == Generated(n)
  {
  }

  lemma UnusedAfter(s: State, t: State, n: nat)
    requires Unnamed(s, n) && |t.tables.ledger| == |s.tables.ledger| + 2 && s.tables.ledger <= t.tables.ledger
    requires t.tables.ledger[|s.tables.ledger|].group == Txg(n)
             && t.tables.ledger[|s.tables.ledger| + 1].group == Txg(n)
    ensures forall j :: j > n ==> UnusedGroup(t.tables.ledger, Txg(j))
  {
  }

  // ----- the runs -----

  lemma StartIsOpen()
    ensures Initial(START) && Open(START, 1)
  {
    Always(START, []);
  }

  /** Payment p in currency c: taken, and posted under number n as event i. */
  function TakeAndPost(p: PaymentId, amount: int, c: Currency, i: nat, n: nat): seq<Action> {
    Take(p, amount, c) + [Post(i, LedgerIds(n, n))]
  }

  lemma TakenAndPosted(s: State, p: PaymentId, amount: int, c: Currency, n: nat)
    requires Open(s, n) && amount > 0 && p !in s.tables.payments && !KeyTaken(s.tables.payments, 1, p)
    ensures var t := Exec(s, TakeAndPost(p, amount, c, |s.log|, n));
      && Open(t, n + 1) && Keeps(s, t) && t.log == s.log + [Event(Created, Some(p), {}, 1, amount, c)]
      && t.tables.payments == s.tables.payments[p := Fresh(p, amount, c, Initiated, s.now)]
      && |t.tables.ledger| == |s.tables.ledger| + 2 && IsCapture(t.tables.ledger[|s.tables.ledger| + 1], p)
      && System in t.tables.accounts && HasPayable(t.tables, c)
  {
    hide Open, Exec, KeyTaken, Take;
    Taken(s, p, amount, c, n);
    var s1 := Exec(s, Take(p, amount, c));
    Posted(s1, |s.log|, p, n);
    ExecAppend(s, Take(p, amount, c), [Post(|s.log|, LedgerIds(n, n))]);
  }

  lemma StillPayable(t: Tables, t': Tables, c: Currency)
    requires HasPayable(t, c) && forall a :: a in t.accounts ==> a in t'.accounts && t'.accounts[a] == t.accounts[a]
    ensures HasPayable(t', c)
  {
    var a :| a in t.accounts && IsAccount(t.accounts, a, 1, MerchantPayable, c);
    assert IsAccount(t'.accounts, a, 1, MerchantPayable, c);
  }

  /** One payment, settled. */
  function SettledRun(): seq<Action> {
    TakeAndPost(1, 100, LowerUsd, 0, 1) + [Poll([SHOP])] + [Settle(1, SettleIds(2, 2, 3, 2))]
  }

  lemma OnePosted()
    ensures var t := Exec(START, TakeAndPost(1, 100, LowerUsd, 0, 1));
      && Open(t, 2) && t.now == 0 && t.log == [Event(Created, Some(1), {}, 1, 100, LowerUsd)]
         && t.tables.refunds == map[]
      && t.tables.payments == map[1 := Fresh(1, 100, LowerUsd, Initiated, 0)]
      && |t.tables.ledger| == 2 && System in t.tables.accounts && HasPayable(t.tables, LowerUsd)
  {
    StartIsOpen();
    hide Open, Exec, TakeAndPost, HasPayable;
    TakenAndPosted(START, 1, 100, LowerUsd, 1);
    assert START.log == [];
  }

  lemma OnePolled()
    ensures var t := Exec(START, TakeAndPost(1, 100, LowerUsd, 0, 1) + [Poll([SHOP])]);
      && Open(t, 2) && t.now == 0 && t.tables.payments == map[1 := Fresh(1, 100, LowerUsd, Initiated, 0)]
      && t.log == [Event(Created, Some(1), {}, 1, 100, LowerUsd), Event(Initiated, None, {1}, 1, 100, LowerUsd)]
  {
    OnePosted();
    hide Open, Exec, TakeAndPost, HasPayable;
    var a := TakeAndPost(1, 100, LowerUsd, 0, 1);
    var s1 := Exec(START, a);
    OpenShop(s1, 2);
    OnlyGroup(s1.tables, s1.now, 1);
    Polled(s1, 1, 2);
    ExecAppend(START, a, [Poll([SHOP])]);
  }

  lemma SettledRunWorks()
    ensures Initial(START)
    ensures var s := Exec(START, SettledRun());
      && Inv(s) && |s.log| == 2 && s.log[0] == Event(Created, Some(1), {}, 1, 100, LowerUsd)
      && 1 in s.tables.payments && s.tables.payments[1].status == Processed
      && UnusedGroup(s.tables.ledger, Txg(4)) && Generated(4) !in s.tables.accounts
  {
    StartIsOpen();
    OnePolled();
    hide Open, Exec, Inv, UnusedGroup, TakeAndPost;
    var a := TakeAndPost(1, 100, LowerUsd, 0, 1) + [Poll([SHOP])];
    SettledOne(Exec(START, a), 1, 1, 2);
    ExecAppend(START, a, [Settle(1, SettleIds(2, 2, 3, 2))]);
  }

  /** The one due payment of its currency. */
  lemma OnlyGroup(t: Tables, now: nat, p: PaymentId)
    requires t.merchants == map[1 := Instant] && p in t.payments && t.payments[p].merchant == 1
    requires t.payments[p].status == Initiated && t.payments[p].settlement.None? && t.payments[p].updatedAt <= now
    requires forall q :: q in t.payments && q != p ==> t.payments[q].currency != t.payments[p].currency
    ensures Group(t, now, KeyOf(t.payments[p])) == {p}
  {
  }

  /** It happens: the `created` event of a processed payment is posted again, its status moves back to initiated,
      and the merchant is owed its amount a second time. */
  lemma RepostMovesBack()
    ensures Initial(START)
    ensures var s := Exec(START, SettledRun());
            var t := Exec(START, SettledRun() + [Post(0, LedgerIds(4, 4))]);
      && 1 in s.tables.payments && s.tables.payments[1].status == Processed
      && 1 in t.tables.payments && t.tables.payments[1].status == Initiated
      && PayableBalance(t.tables, 1, LowerUsd) == PayableBalance(s.tables, 1, LowerUsd) + 100
  {
    SettledRunWorks();
    hide Exec, Inv, UnusedGroup, PayableBalance, SettledRun;
    var s := Exec(START, SettledRun());
    ExecAppend(START, SettledRun(), [Post(0, LedgerIds(4, 4))]);
    ExecOne(s, Post(0, LedgerIds(4, 4)));
    RepostPaysAgain(START, SettledRun(), 0, LedgerIds(4, 4));
    PostCommitsWheneverDelivered(s, 0, LedgerIds(4, 4));
    hide PostEffect, Postable;
    var _ := PostShape(s.tables, s.now, s.log[0], LedgerIds(4, 4));
  }

  /** A payment in `usd` is posted; another one in INR is posted and settled. */
  function TwoCurrencies(): seq<Action> {
    TakeAndPost(1, 100, LowerUsd, 0, 1) + TakeAndPost(2, 200, Inr, 1, 2)
    + [Poll([GroupKey(1, Inr)])] + [Settle(2, SettleIds(3, 3, 4, 3))]
  }

  lemma TwoPosted()
    ensures var s := Exec(START, TakeAndPost(1, 100, LowerUsd, 0, 1) + TakeAndPost(2, 200, Inr, 1, 2));
      && Open(s, 3) && |s.log| == 2 && HasPayable(s.tables, LowerUsd) && System in s.tables.accounts
         && s.tables.refunds == map[]
      && s.tables.payments == map[1 := Fresh(1, 100, LowerUsd, Initiated, 0), 2 := Fresh(2, 200, Inr, Initiated, 0)]
      && |s.tables.ledger| == 4 && IsCapture(s.tables.ledger[3], 2) && s.now == 0
  {
    OnePosted();
    hide Open, Exec, TakeAndPost, HasPayable;
    var a, b := TakeAndPost(1, 100, LowerUsd, 0, 1), TakeAndPost(2, 200, Inr, 1, 2);
    var s1 := Exec(START, a);
    TakenAndPosted(s1, 2, 200, Inr, 2);
    ExecAppend(START, a, b);
    StillPayable(s1.tables, Exec(s1, b).tables, LowerUsd);
  }

  lemma TwoCurrenciesWork()
    ensures Initial(START)
    ensures var t := Exec(START, TwoCurrencies()).tables;
      && Inv(Exec(START, TwoCurrencies())) && 2 in t.payments && t.payments[2].merchant == 1
         && t.payments[2].status == Processed
      && t.payments[2].amount == 200 && t.payments[2].currency == Inr && HasPayable(t, LowerUsd) && System in t.accounts
      && t.refunds == map[] && 1 in t.merchants && 3 < |t.ledger| && IsCapture(t.ledger[3], 2)
  {
    StartIsOpen();
    TwoPosted();
    hide Open, Exec, TakeAndPost, HasPayable, Inv, UnusedGroup;
    var both := TakeAndPost(1, 100, LowerUsd, 0, 1) + TakeAndPost(2, 200, Inr, 1, 2);
    var s1 := Exec(START, both);
    OpenShop(s1, 3);
    OnlyGroup(s1.tables, s1.now, 2);
    Polled(s1, 2, 3);
    var s2 := Exec(s1, [Poll([GroupKey(1, Inr)])]);
    OpenShop(s2, 3);
    ExecAppend(START, both, [Poll([GroupKey(1, Inr)])]);
    SettledOne(s2, 2, 2, 3);
    ExecAppend(START, both + [Poll([GroupKey(1, Inr)])], [Settle(2, SettleIds(3, 3, 4, 3))]);
    StillPayable(s2.tables, Exec(s2, [Settle(2, SettleIds(3, 3, 4, 3))]).tables, LowerUsd);
  }

  lemma OpenShop(s: State, n: nat)
    requires Open(s, n)
    ensures s.tables.merchants == map[1 := Instant]
  {
  }

  /** It happens: the refund of a settled INR payment commits, and debits another account than the one its
      capture credited. */
  lemma RefundMissesCapture()
    ensures Initial(START)
    ensures var t := Exec(START, TwoCurrencies()).tables;
      && 3 < |t.ledger| && IsCapture(t.ledger[3], 2) && RefundEffect(t, 1, 2, 200, 1).Some?
      && var t' := RefundEffect(t, 1, 2, 200, 1).value;
      && |t'.ledger| == |t.ledger| + 2 && t'.ledger[|t.ledger|].kind == Debit
      && t'.ledger[|t.ledger|].account != t.ledger[3].account
  {
    TwoCurrenciesWork();
    var t := Exec(START, TwoCurrencies()).tables;
    RefundIff(t, 1, 2, 200, 1);
    hide Exec, RefundEffect, TwoCurrencies, Inv, HasPayable;
    RefundMirrorsCapture(START, TwoCurrencies(), 2, 200, 1, 3);
  }
}
